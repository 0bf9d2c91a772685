/** What becomes of every element handed to the serial keyer (internal/cw/serialkey.go). */
module KeyerLedger {
  import opened Basics
  import opened Morse
  import opened SerialKeyer
  import opened KeySchedule
  import Timing

  /** The elements keyed so far, in the order of their edges. */
  function Edges(rises: seq<Rise>): seq<Element> {
    if rises == [] then [] else Edges(rises[..|rises| - 1]) + rises[|rises| - 1].el
  }

  /** What the live transmission still has of the symbol in its hand. */
  function Held(w: World): seq<Element> {
    if InTransmit(w.pc) && Live(w.s, w.gen) then InHand(w.pc) else []
  }

  /** Everything accepted that is still to be keyed. */
  function Owed(w: World): seq<Element> { Held(w) + AllElements(w.s.queue) }

  /** The symbols a step adds. */
  function Accepts(w: World, st: Step): seq<Symbol> {
    if st.Enqueue? && !w.s.closed then st.syms else []
  }

  /** What of the elements owed is still owed after a step: an abort, the close and a line that
      cannot be raised give up all of them, a replacement those that are not in hand. */
  function Survives(w: World, st: Step): seq<Element> {
    match st
    case Enqueue(_, replace) => if replace && !w.s.closed then Held(w) else Owed(w)
    case Abort => []
    case Close => if w.s.closed then Owed(w) else []
    case Signal => Owed(w)
    case Keyer(works, _) => if (w.pc.Raise? || w.pc.Ready?) && Live(w.s, w.gen) && !works then [] else Owed(w)
  }

  // Symbols are as the parser makes them, a symbol in hand has elements left, and nothing is
  // queued on a closed sender.
  predicate Tidy(w: World) {
    && Timing.Sound(w.s.queue) && (w.s.closed ==> w.s.queue == [])
    && (w.pc.Edge? || w.pc.Ready? || w.pc.Down? || w.pc.Lift? ==> w.pc.left != [])
  }

  predicate SoundStep(st: Step) { st.Enqueue? ==> Timing.Sound(st.syms) }

  lemma EdgesPush(rises: seq<Rise>, r: Rise)
    ensures Edges(rises + [r]) == Edges(rises) + r.el
  {
    assert (rises + [r])[..|rises|] == rises;
  }

  /** No element is lost, doubled or moved by any step: what was keyed, then what of the debt
      survives, then what comes in, is what is keyed afterwards and then owed. */
  lemma StepKeeps(w: World, st: Step, hasPtt: bool)
    requires Safe(w, hasPtt) && Enabled(w, st) && Tidy(w) && SoundStep(st)
    ensures var m := Next(w, st, hasPtt);
      && Tidy(m) && w.rises <= m.rises
      && Edges(m.rises) + Owed(m) == Edges(w.rises) + Survives(w, st) + AllElements(Accepts(w, st))
  {
    hide Edges, AllElements;
    NoElements();
    match st
    case Enqueue(syms, replace) => EnqueueKeeps(w, syms, replace, hasPtt);
    case Keyer(works, pick) => KeyerKeeps(w, works, pick, hasPtt);
    case _ =>
  }

  lemma NoElements()
    ensures AllElements([]) == []
  {}

  lemma EnqueueKeeps(w: World, syms: seq<Symbol>, replace: bool, hasPtt: bool)
    requires Tidy(w) && Timing.Sound(syms)
    ensures var st := SerialKeyer.Enqueue(syms, replace); var m := Next(w, st, hasPtt);
      && Tidy(m) && m.rises == w.rises
      && Owed(m) == Survives(w, st) + AllElements(Accepts(w, st))
  {
    NoElements();
    AllElementsConcat(if replace then [] else w.s.queue, syms);
    hide AllElements;
  }

  lemma KeyerKeeps(w: World, works: bool, pick: Pick, hasPtt: bool)
    requires Safe(w, hasPtt) && Enabled(w, Keyer(works, pick)) && Tidy(w)
    ensures var m := KeyerNext(w, works, pick, hasPtt);
      && Tidy(m) && w.rises <= m.rises
      && Edges(m.rises) + Owed(m) == Edges(w.rises) + Survives(w, Keyer(works, pick))
  {
    hide Edges, AllElements, KeyingNext, WaitingNext, Safe;
    hide SerialKeyer.Raised;
    if w.pc.Raise? {
      RiseKeeps(w, PttLine, works, pick, hasPtt, Loop);
    } else if w.pc.Ready? {
      RiseKeeps(w, KeyLine, works, pick, hasPtt, Down(w.pc.left));
    } else if Keying(w.pc) {
      KeyingKeeps(w, hasPtt);
    } else {
      WaitingKeeps(w, works, pick, hasPtt);
    }
  }

  lemma RiseKeeps(w: World, l: Line, works: bool, pick: Pick, hasPtt: bool, up: Pc)
    requires Tidy(w)
    requires (w.pc.Raise? && l.PttLine? && up == Loop) || (w.pc.Ready? && l.KeyLine? && up == Down(w.pc.left))
    ensures var m := SerialKeyer.Raised(w, l, works, hasPtt, up);
      && Tidy(m) && w.rises <= m.rises
      && Edges(m.rises) + Owed(m) == Edges(w.rises) + Survives(w, Keyer(works, pick))
  {
    hide AllElements, DoAbort, Timing.Sound;
    if Live(w.s, w.gen) && works { RoseKeeps(w, l, works, pick, hasPtt, up); } else { FailKeeps(w, l, works, pick, hasPtt, up); }
    hide SerialKeyer.Raised, Tidy, Owed, Survives, Edges;
  }

  lemma FailKeeps(w: World, l: Line, works: bool, pick: Pick, hasPtt: bool, up: Pc)
    requires Tidy(w) && (w.pc.Raise? || w.pc.Ready?) && !(Live(w.s, w.gen) && works)
    ensures var m := SerialKeyer.Raised(w, l, works, hasPtt, up);
      Tidy(m) && m.rises == w.rises && Owed(m) == Survives(w, Keyer(works, pick))
  {
    AbortClears(w.s, hasPtt);
    NoElements();
    hide AllElements, DoAbort;
  }

  lemma RoseKeeps(w: World, l: Line, works: bool, pick: Pick, hasPtt: bool, up: Pc)
    requires Tidy(w) && Live(w.s, w.gen) && works
    requires (w.pc.Raise? && l.PttLine? && up == Loop) || (w.pc.Ready? && l.KeyLine? && up == Down(w.pc.left))
    ensures var m := SerialKeyer.Raised(w, l, works, hasPtt, up);
      && Tidy(m) && w.rises <= m.rises
      && Edges(m.rises) + Owed(m) == Edges(w.rises) + Survives(w, Keyer(works, pick))
  {
    hide *;
    RoseHolds(w, l, works, hasPtt, up);
    var el := if l.KeyLine? then First(InHand(w.pc)) else [];
    EdgesPush(w.rises, Rise(l, w.gen, el));
    var m := SerialKeyer.Raised(w, l, works, hasPtt, up);
    RoseOwes(w, l, works, pick, hasPtt, up);
    assert Edges(w.rises) + el + Owed(m) == Edges(w.rises) + (el + Owed(m));
  }

  lemma RoseHolds(w: World, l: Line, works: bool, hasPtt: bool, up: Pc)
    requires Tidy(w) && Live(w.s, w.gen) && works
    requires (w.pc.Raise? && l.PttLine? && up == Loop) || (w.pc.Ready? && l.KeyLine? && up == Down(w.pc.left))
    ensures var m := SerialKeyer.Raised(w, l, works, hasPtt, up);
      && Tidy(m) && m.s.queue == w.s.queue && m.gen == w.gen && Live(m.s, m.gen) && m.pc == up
      && m.rises == w.rises + [Rise(l, w.gen, if l.KeyLine? then First(InHand(w.pc)) else [])]
  {
    hide DoAbort, Timing.Sound, InHand, First;
  }

  lemma RoseOwes(w: World, l: Line, works: bool, pick: Pick, hasPtt: bool, up: Pc)
    requires Tidy(w) && Live(w.s, w.gen) && works
    requires (w.pc.Raise? && l.PttLine? && up == Loop) || (w.pc.Ready? && l.KeyLine? && up == Down(w.pc.left))
    ensures (if l.KeyLine? then First(InHand(w.pc)) else []) + Owed(SerialKeyer.Raised(w, l, works, hasPtt, up))
         == Survives(w, Keyer(works, pick))
  {
    RoseHolds(w, l, works, hasPtt, up);
    hide AllElements, SerialKeyer.Raised, Timing.Sound, Tidy;
    var rest := AllElements(w.s.queue);
    if l.KeyLine? {
      var left := w.pc.left;
      assert First(left) + Later(left) == left;
      assert First(left) + (Later(left) + rest) == First(left) + Later(left) + rest;
    }
  }

  lemma AbortClears(s: Shared, hasPtt: bool)
    ensures var a := DoAbort(s, hasPtt); a.queue == [] && a.closed == s.closed && a.gen == s.gen + 1
  {}

  lemma KeyingKeeps(w: World, hasPtt: bool)
    requires Safe(w, hasPtt) && Keying(w.pc) && Tidy(w)
    ensures var m := KeyingNext(w); Tidy(m) && m.rises == w.rises && Owed(m) == Owed(w)
  {
    AbortSeen(w, hasPtt);
    hide Safe, AllElements;
    if w.pc.Loop? { LoopKeeps(w); }
    hide DoNext;
  }

  lemma LoopKeeps(w: World)
    requires w.pc.Loop? && Tidy(w)
    ensures var m := KeyingNext(w); Tidy(m) && m.rises == w.rises && Owed(m) == Owed(w)
  {
    NoElements();
    if Live(w.s, w.gen) && w.s.queue != [] {
      AllElementsFront(w.s.queue);
      SoundTail(w.s.queue);
    }
    hide AllElements, Timing.Sound;
  }

  lemma SoundTail(syms: seq<Symbol>)
    requires Timing.Sound(syms) && syms != []
    ensures Timing.Sound(syms[1..]) && (syms[0].kind == SpaceKind ==> syms[0].elements == [])
  {}

  /** The keyer sees its transmission given up exactly when it no longer is the live one. */
  lemma AbortSeen(w: World, hasPtt: bool)
    requires Safe(w, hasPtt) && InTransmit(w.pc)
    ensures w.abort in w.s.shut <==> !Live(w.s, w.gen)
  {}

  lemma WaitingKeeps(w: World, works: bool, pick: Pick, hasPtt: bool)
    requires Enabled(w, Keyer(works, pick)) && !Keying(w.pc) && !w.pc.Raise? && !w.pc.Ready? && Tidy(w)
    ensures var m := WaitingNext(w, pick, hasPtt); Tidy(m) && m.rises == w.rises && Owed(m) == Owed(w)
  {
    WaitingHolds(w, works, pick, hasPtt);
    hide AllElements, WaitingNext, Timing.Sound;
  }

  lemma WaitingHolds(w: World, works: bool, pick: Pick, hasPtt: bool)
    requires Enabled(w, Keyer(works, pick)) && !Keying(w.pc) && !w.pc.Raise? && !w.pc.Ready?
    ensures var m := WaitingNext(w, pick, hasPtt);
      && m.s.queue == w.s.queue && m.s.closed == w.s.closed && m.rises == w.rises
      && InHand(w.pc) == [] && InHand(m.pc) == []
  {
    WaitingHand(w, pick, hasPtt);
    hide InHand;
  }

  lemma WaitingHand(w: World, pick: Pick, hasPtt: bool)
    requires !Keying(w.pc) && !w.pc.Raise? && !w.pc.Ready?
    ensures InHand(w.pc) == [] && InHand(WaitingNext(w, pick, hasPtt).pc) == []
  {
    hide WithLine, DoFinish;
  }

  // ---- whole runs ----

  predicate SoundSteps(steps: seq<Step>) { forall k :: 0 <= k < |steps| ==> SoundStep(steps[k]) }

  /** The symbols accepted over a run. */
  function Accepted(w: World, steps: seq<Step>, hasPtt: bool): seq<Symbol>
    decreases |steps|
  {
    if steps == [] then [] else Accepts(w, steps[0]) + Accepted(Next(w, steps[0], hasPtt), steps[1..], hasPtt)
  }

  /** How many elements a run gives up. */
  function Forgone(w: World, steps: seq<Step>, hasPtt: bool): int
    decreases |steps|
  {
    if steps == [] then 0
    else |Owed(w)| - |Survives(w, steps[0])| + Forgone(Next(w, steps[0], hasPtt), steps[1..], hasPtt)
  }

  lemma SurvivesPart(w: World, st: Step)
    ensures Survives(w, st) <= Owed(w)
  {
    hide InHand, AllElements;
  }

  lemma {:induction false} RunKeeps(w: World, steps: seq<Step>, hasPtt: bool)
    requires Safe(w, hasPtt) && Tidy(w) && AllEnabled(w, steps, hasPtt) && SoundSteps(steps)
    ensures var m := Outcome(w, steps, hasPtt);
      && Edges(w.rises) <= Edges(m.rises) && Forgone(w, steps, hasPtt) >= 0
      && |Edges(m.rises)| + |Owed(m)| + Forgone(w, steps, hasPtt)
           == |Edges(w.rises)| + |Owed(w)| + |AllElements(Accepted(w, steps, hasPtt))|
      && (Forgone(w, steps, hasPtt) == 0 ==>
            Edges(m.rises) + Owed(m) == Edges(w.rises) + Owed(w) + AllElements(Accepted(w, steps, hasPtt)))
    decreases |steps|
  {
    hide Safe, Tidy, Next, Owed, Edges, AllElements, Survives, Accepts, Enabled, SoundStep;
    NoElements();
    if steps != [] {
      var st, m := steps[0], Next(w, steps[0], hasPtt);
      StepSafe(w, st, hasPtt);
      StepKeeps(w, st, hasPtt);
      SurvivesPart(w, st);
      RunKeeps(m, steps[1..], hasPtt);
      EdgesGrow(w.rises, m.rises);
      AllElementsConcat(Accepts(w, st), Accepted(m, steps[1..], hasPtt));
    }
  }

  lemma {:induction false} EdgesGrow(a: seq<Rise>, b: seq<Rise>)
    requires a <= b
    ensures Edges(a) <= Edges(b)
    decreases |b|
  {
    if |a| < |b| { EdgesGrow(a, b[..|b| - 1]); } else { assert a == b; }
  }

  /** Under every interleaving of callers and keyer, each element of the text accepted is keyed
      once, still owed, or was given up by an abort, a close, a replacement or a failing line; and
      where nothing was given up, they are keyed in the order of the text. */
  lemma EveryElement(steps: seq<Step>, hasPtt: bool)
    requires AllEnabled(Begin(), steps, hasPtt) && SoundSteps(steps)
    ensures var w := Outcome(Begin(), steps, hasPtt);
      var text := AllElements(Accepted(Begin(), steps, hasPtt));
      && Forgone(Begin(), steps, hasPtt) >= 0
      && |Edges(w.rises)| + |Owed(w)| + Forgone(Begin(), steps, hasPtt) == |text|
      && (Forgone(Begin(), steps, hasPtt) == 0 ==> Edges(w.rises) + Owed(w) == text)
  {
    BeginsEven(hasPtt);
    hide *;
    RunKeeps(Begin(), steps, hasPtt);
  }

  lemma BeginsEven(hasPtt: bool)
    ensures Safe(Begin(), hasPtt) && Tidy(Begin()) && Edges(Begin().rises) == [] && Owed(Begin()) == []
  {}

  /** The keyer's edges are the schedule's: a run that gives nothing up and owes nothing raises the
      key once for each mark any schedule of the same text has, for the same element. */
  lemma EdgesAreMarks(steps: seq<Step>, hasPtt: bool, turns: seq<Turn>, ps: seq<Pulse>, begin: int)
    requires AllEnabled(Begin(), steps, hasPtt) && SoundSteps(steps) && Forgone(Begin(), steps, hasPtt) == 0
    requires Owed(Outcome(Begin(), steps, hasPtt)) == []
    requires Chain(turns, ps) && Opens(turns, ps, begin) && Reaches(turns, ps, |turns|) && SoundTurns(turns)
    requires Taken(turns) == Accepted(Begin(), steps, hasPtt)
    ensures var edges := Edges(Outcome(Begin(), steps, hasPtt).rises);
      |edges| == |ps| && edges == Keyed(turns, ps)
  {
    hide *;
    EveryElement(steps, hasPtt);
    KeysTheText(turns, ps, begin);
  }

  // ---- what the status counts ----

  /** The symbols queued that a step leaves queued or takes. */
  function QueueKept(w: World, st: Step): seq<Symbol> {
    match st
    case Enqueue(_, replace) => if replace && !w.s.closed then [] else w.s.queue
    case Abort => []
    case Close => if w.s.closed then w.s.queue else []
    case Signal => w.s.queue
    case Keyer(works, _) => if (w.pc.Raise? || w.pc.Ready?) && Live(w.s, w.gen) && !works then [] else w.s.queue
  }

  predicate TakesInTurn(w: World, st: Step, m: World) {
    m.taken + m.s.queue == w.taken + QueueKept(w, st) + Accepts(w, st)
  }

  /** The symbol counted as in hand is the last one taken; an idle keyer counts none. */
  predicate Counts(w: World) {
    if w.s.busy then w.taken != [] && w.s.curChars == |w.taken[|w.taken| - 1].text| else w.s.curChars == 0
  }

  lemma StepTakes(w: World, st: Step, hasPtt: bool)
    requires Counts(w) && Enabled(w, st)
    ensures var m := Next(w, st, hasPtt); Counts(m) && TakesInTurn(w, st, m)
  {
    if st.Keyer? {
      KeyerTakes(w, st.works, st.pick, hasPtt);
      hide KeyerNext;
    }
  }

  lemma KeyerTakes(w: World, works: bool, pick: Pick, hasPtt: bool)
    requires Counts(w)
    ensures var m := KeyerNext(w, works, pick, hasPtt); Counts(m) && TakesInTurn(w, Keyer(works, pick), m)
  {
    if Keying(w.pc) {
      KeyingTakes(w, works, pick);
      hide KeyingNext, Counts, TakesInTurn;
    } else if w.pc.Raise? || w.pc.Ready? {
      hide KeyingNext, WaitingNext;
    } else {
      WaitingTakes(w, works, pick, hasPtt);
      hide WaitingNext, Counts, TakesInTurn;
    }
  }

  lemma KeyingTakes(w: World, works: bool, pick: Pick)
    requires Counts(w) && Keying(w.pc)
    ensures var m := KeyingNext(w); Counts(m) && TakesInTurn(w, Keyer(works, pick), m)
  {
    if w.pc.Loop? && w.s.queue != [] { assert w.s.queue[..1] + w.s.queue[1..] == w.s.queue; }
  }

  lemma WaitingTakes(w: World, works: bool, pick: Pick, hasPtt: bool)
    requires Counts(w) && !Keying(w.pc) && !w.pc.Raise? && !w.pc.Ready?
    ensures var m := WaitingNext(w, pick, hasPtt); Counts(m) && TakesInTurn(w, Keyer(works, pick), m)
  {
    WaitingTakesNone(w, pick, hasPtt);
    hide WaitingNext;
  }

  lemma WaitingTakesNone(w: World, pick: Pick, hasPtt: bool)
    requires !Keying(w.pc) && !w.pc.Raise? && !w.pc.Ready?
    ensures var m := WaitingNext(w, pick, hasPtt);
      && m.taken == w.taken && m.s.queue == w.s.queue
      && ((m.s.busy == w.s.busy && m.s.curChars == w.s.curChars) || (!m.s.busy && m.s.curChars == 0))
  {}

  /** A run none of whose steps empties a queue with something in it. */
  predicate KeepsQueue(w: World, steps: seq<Step>, hasPtt: bool)
    decreases |steps|
  {
    steps == [] || (QueueKept(w, steps[0]) == w.s.queue && KeepsQueue(Next(w, steps[0], hasPtt), steps[1..], hasPtt))
  }

  lemma {:induction false} RunTakes(w: World, steps: seq<Step>, hasPtt: bool)
    requires Counts(w) && AllEnabled(w, steps, hasPtt)
    ensures var m := Outcome(w, steps, hasPtt);
      && Counts(m)
      && (KeepsQueue(w, steps, hasPtt) ==> m.taken + m.s.queue == w.taken + w.s.queue + Accepted(w, steps, hasPtt))
    decreases |steps|
  {
    hide Next, Counts, QueueKept, Accepts, Enabled;
    if steps != [] {
      var st, m := steps[0], Next(w, steps[0], hasPtt);
      StepTakes(w, st, hasPtt);
      RunTakes(m, steps[1..], hasPtt);
      var more := Accepted(m, steps[1..], hasPtt);
      assert w.taken + w.s.queue + Accepts(w, st) + more == w.taken + w.s.queue + (Accepts(w, st) + more);
    }
  }

  lemma {:induction false} TextLenConcat(a: seq<Symbol>, b: seq<Symbol>)
    ensures TextLen(a + b) == TextLen(a) + TextLen(b)
  {
    if b == [] {
      assert a + b == a;
    } else {
      assert (a + b)[..|a + b| - 1] == a + b[..|b| - 1];
      TextLenConcat(a, b[..|b| - 1]);
    }
  }

  /** The symbols a keyer is done with: those it took, but for the one in hand. */
  function Finished(w: World): seq<Symbol> { if w.s.busy && w.taken != [] then w.taken[..|w.taken| - 1] else w.taken }

  /** What the status counts is what was accepted and is not finished: over every run that drops no
      queue, the characters it reports are those of the text, less those of the symbols done. */
  lemma StatusCounts(steps: seq<Step>, hasPtt: bool)
    requires AllEnabled(Begin(), steps, hasPtt) && KeepsQueue(Begin(), steps, hasPtt)
    ensures var w := Outcome(Begin(), steps, hasPtt); var text := Accepted(Begin(), steps, hasPtt);
      && Finished(w) <= text && Chars(w.s) == TextLen(text) - TextLen(Finished(w))
      && (!Busied(w.s) ==> Finished(w) == text)
  {
    BeginCounts();
    hide *;
    RunTakes(Begin(), steps, hasPtt);
    var w := Outcome(Begin(), steps, hasPtt);
    assert [] + [] + Accepted(Begin(), steps, hasPtt) == Accepted(Begin(), steps, hasPtt);
    StateCounts(w, Accepted(Begin(), steps, hasPtt));
  }

  lemma BeginCounts()
    ensures Counts(Begin()) && Begin().taken == [] && Begin().s.queue == []
  {}

  lemma StateCounts(w: World, text: seq<Symbol>)
    requires Counts(w) && w.taken + w.s.queue == text
    ensures Finished(w) <= text && Chars(w.s) == TextLen(text) - TextLen(Finished(w))
    ensures !Busied(w.s) ==> Finished(w) == text
  {
    TextLenConcat(w.taken, w.s.queue);
  }
}

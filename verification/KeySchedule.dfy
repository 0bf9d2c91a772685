/** The edges transmit keys on the line (internal/cw/serialkey.go): at whatever speed each symbol
    finds, and however late more text comes. */
module KeySchedule {
  import opened Basics
  import opened Morse
  import opened Timing
  import Chunks

  // One turn of transmit's loop: it takes a symbol at the speed it has just read, or it has run
  // out of text at that speed and more comes, with the clock read twice.
  datatype Turn =
    | Take(sym: Symbol, t: Timing)
    | Resume(seen: int, now: int, t: Timing)

  // One mark: the key line goes up at up and down at down, for element el of the symbol taken
  // at a turn.
  datatype Pulse = Pulse(up: int, down: int, turn: nat, el: nat)

  predicate IsMark(u: Turn) { u.Take? && u.sym.kind != SpaceKind }

  function ElementsAt(u: Turn): seq<Element> { if u.Take? then u.sym.elements else [] }

  predicate SoundTurns(turns: seq<Turn>) {
    forall k :: 0 <= k < |turns| && turns[k].Take? ==> (turns[k].sym.kind == SpaceKind <==> turns[k].sym.elements == [])
  }

  /** The symbols taken. */
  function Taken(turns: seq<Turn>): seq<Symbol> {
    if turns == [] then []
    else Taken(turns[..|turns| - 1]) + (if turns[|turns| - 1].Take? then [turns[|turns| - 1].sym] else [])
  }

  // ---- the silences ----

  /** More text came so late that the schedule, standing at at, is already behind. */
  predicate Late(u: Turn, at: int) { u.Resume? && u.seen > at + u.t.charGap }

  predicate Silent(turns: seq<Turn>, lo: nat, hi: nat) {
    hi <= |turns| && forall k :: lo <= k < hi ==> !IsMark(turns[k])
  }

  /** Where a schedule that stands at at is after the silent turns lo to hi: a space is a word gap
      once anything is keyed, and late text starts over from the clock. */
  function Stand(turns: seq<Turn>, keyed: bool, at: int, lo: nat, hi: nat): int
    requires lo <= hi <= |turns|
    decreases hi
  {
    if lo == hi then at
    else
      var a := Stand(turns, keyed, at, lo, hi - 1);
      if turns[hi - 1].Take? then (if keyed then a + turns[hi - 1].t.wordGap else a)
      else if Late(turns[hi - 1], a) then turns[hi - 1].now
      else a
  }

  /** Turn k finds the schedule behind, if the silence began at at with turn lo. */
  predicate Behind(turns: seq<Turn>, at: int, lo: nat, k: nat)
    requires lo <= k < |turns|
  {
    Late(turns[k], Stand(turns, true, at, lo, k))
  }

  /** Neither a space nor late text parts the mark that ended at at from what comes at hi. */
  predicate Joined(turns: seq<Turn>, at: int, lo: nat, hi: nat)
    requires hi <= |turns|
  {
    forall k :: lo <= k < hi ==> turns[k].Resume? && !Late(turns[k], at)
  }

  // ---- the marks ----

  /** The element a mark keys, for as long as the timing of its symbol gives it. */
  predicate Exact(turns: seq<Turn>, p: Pulse) {
    && p.turn < |turns| && IsMark(turns[p.turn]) && p.el < |turns[p.turn].sym.elements|
    && p.down - p.up == Mark(turns[p.turn].t, turns[p.turn].sym.elements[p.el])
  }

  /** q is the very next mark after p, and the silence between them is the one the code calls for:
      an element gap within a symbol, a letter gap between neighbours, and else where the silent
      turns between them leave the schedule. */
  predicate Follows(turns: seq<Turn>, p: Pulse, q: Pulse) {
    && p.turn < |turns| && q.turn < |turns|
    && if p.turn == q.turn then q.el == p.el + 1 && q.up - p.down == turns[p.turn].t.elementGap
       else
         && p.turn < q.turn && p.el + 1 == |ElementsAt(turns[p.turn])| && q.el == 0
         && Silent(turns, p.turn + 1, q.turn)
         && q.up == if Joined(turns, p.down, p.turn + 1, q.turn) then p.down + turns[q.turn].t.charGap
                    else Stand(turns, true, p.down, p.turn + 1, q.turn)
  }

  predicate Chain(turns: seq<Turn>, ps: seq<Pulse>) {
    && (ps != [] ==> Exact(turns, ps[|ps| - 1]))
    && (|ps| > 1 ==> Follows(turns, ps[|ps| - 2], ps[|ps| - 1]))
    && (ps != [] ==> Chain(turns, ps[..|ps| - 1]))
  }

  /** The marks open with the first element there is, at the instant keying may begin. */
  predicate Opens(turns: seq<Turn>, ps: seq<Pulse>, begin: int) {
    ps != [] ==>
      && ps[0].el == 0 && Silent(turns, 0, ps[0].turn)
      && ps[0].up == Stand(turns, false, begin, 0, ps[0].turn)
  }

  /** Nothing among the first n turns is left to key. */
  predicate Reaches(turns: seq<Turn>, ps: seq<Pulse>, n: nat)
    requires n <= |turns|
  {
    if ps == [] then Silent(turns, 0, n)
    else
      var q := ps[|ps| - 1];
      && q.turn < n && q.el + 1 == |ElementsAt(turns[q.turn])| && Silent(turns, q.turn + 1, n)
  }

  /** Where the schedule stands as turn n begins. */
  function StandAt(turns: seq<Turn>, ps: seq<Pulse>, begin: int, n: nat): int
    requires n <= |turns|
  {
    if ps == [] then Stand(turns, false, begin, 0, n)
    else
      var q := ps[|ps| - 1];
      if q.turn < n then Stand(turns, true, q.down, q.turn + 1, n) else StandAt(turns, ps[..|ps| - 1], begin, n)
  }

  /** None of the first n turns finds the schedule behind. */
  predicate KeepsUp(turns: seq<Turn>, ps: seq<Pulse>, begin: int, n: nat)
    requires n <= |turns|
  {
    forall k :: 0 <= k < n ==> !Late(turns[k], StandAt(turns, ps, begin, k))
  }

  predicate Uniform(turns: seq<Turn>, t: Timing, n: nat)
    requires n <= |turns|
  {
    forall k :: 0 <= k < n ==> turns[k].t == t
  }

  /** On time and at one speed, the schedule is the estimate's. */
  ghost predicate OnEstimate(turns: seq<Turn>, ps: seq<Pulse>, begin: int, n: nat, at: int)
    requires n <= |turns|
  {
    forall t :: Uniform(turns, t, n) && KeepsUp(turns, ps, begin, n) ==> at == begin + SymbolsTime(t, Taken(turns[..n]))
  }

  /** The end announced for a symbol is the instant its last mark ends. */
  predicate Announced(turns: seq<Turn>, ps: seq<Pulse>, ends: seq<int>) {
    forall k :: 0 <= k < |ps| ==>
      && ps[k].turn < |turns| && ps[k].turn < |ends|
      && (ps[k].el + 1 == |ElementsAt(turns[ps[k].turn])| ==> ends[ps[k].turn] == ps[k].down)
  }

  // What transmit's loop knows between two turns.
  ghost predicate Standing(turns: seq<Turn>, begin: int, n: nat, ps: seq<Pulse>, at: int, keyed: bool, prevChar: bool) {
    && n <= |turns| && Chain(turns, ps) && Opens(turns, ps, begin) && Reaches(turns, ps, n)
    && at == StandAt(turns, ps, begin, n)
    && (keyed <==> ps != [])
    && (prevChar <==> ps != [] && Joined(turns, ps[|ps| - 1].down, ps[|ps| - 1].turn + 1, n))
  }

  /** transmit: the marks of a whole transmission that may key from begin on (its start, after the
      PTT lead where there is a PTT line), where the schedule ends, and the end it had announced
      when each turn was over. */
  method Schedule(turns: seq<Turn>, begin: int) returns (ps: seq<Pulse>, at: int, ends: seq<int>)
    requires SoundTurns(turns)
    ensures Chain(turns, ps) && Opens(turns, ps, begin) && Reaches(turns, ps, |turns|)
    ensures at == StandAt(turns, ps, begin, |turns|) && OnEstimate(turns, ps, begin, |turns|, at)
    ensures |ends| == |turns| && Announced(turns, ps, ends)
  {
    hide Standing, OnEstimate, Announced, SoundTurns, Adds, Chain, Opens, Reaches, StandAt, SymbolTime;
    ps, at, ends := [], begin, [];
    var prevChar, keyed, curEnd := false, false, begin;
    StandingStart(turns, begin);
    for i := 0 to |turns|
      invariant Standing(turns, begin, i, ps, at, keyed, prevChar)
      invariant OnEstimate(turns, ps, begin, i, at)
      invariant |ends| == i && Announced(turns, ps, ends)
    {
      match turns[i] {
        case Resume(seen, now, t) =>
          StandingSilent(turns, begin, i, ps, at, keyed, prevChar);
          if seen > at + t.charGap { at, prevChar := now, false; }
          AnnouncedSilent(turns, ps, ends, curEnd);
        case Take(sym, t) =>
          curEnd := at + SymbolTime(t, sym.elements);
          if prevChar && sym.kind != SpaceKind { curEnd := curEnd + t.charGap; }
          if sym.kind == SpaceKind {
            StandingSilent(turns, begin, i, ps, at, keyed, prevChar);
            if keyed { at := at + t.wordGap; }
            prevChar := false;
            AnnouncedSilent(turns, ps, ends, curEnd);
          } else {
            ghost var was, before := ps, at;
            if prevChar { at := at + t.charGap; }
            ps, at := KeySymbol(turns, begin, i, ps, at, before, keyed, prevChar);
            prevChar, keyed := true, true;
            AnnouncedMark(turns, was, ps, ends, curEnd);
          }
      }
      ends := ends + [curEnd];
    }
    StandingEnd(turns, begin, ps, at, keyed, prevChar);
  }

  // The marks of turn i, keyed after the ones before them.
  predicate Adds(turns: seq<Turn>, i: nat, sent: seq<Pulse>, ps: seq<Pulse>, at: int) {
    && i < |turns| && |ps| == |sent| + |ElementsAt(turns[i])| > |sent| && ps[..|sent|] == sent
    && (forall k :: |sent| <= k < |ps| ==> ps[k].turn == i && ps[k].el == k - |sent|)
    && ps[|ps| - 1].down == at
  }

  /** The marks of turn i's symbol, the first of them at start. */
  method KeySymbol(turns: seq<Turn>, begin: int, i: nat, sent: seq<Pulse>, start: int,
                   ghost before: int, ghost keyed: bool, ghost prevChar: bool)
    returns (ps: seq<Pulse>, at: int)
    requires i < |turns| && IsMark(turns[i]) && SoundTurns(turns)
    requires Standing(turns, begin, i, sent, before, keyed, prevChar) && OnEstimate(turns, sent, begin, i, before)
    requires start == before + if prevChar then turns[i].t.charGap else 0
    ensures Standing(turns, begin, i + 1, ps, at, true, true) && OnEstimate(turns, ps, begin, i + 1, at)
    ensures Adds(turns, i, sent, ps, at) && at == start + SymbolTime(turns[i].t, turns[i].sym.elements)
  {
    hide Chain, Standing, Exact, Follows, Opens, SymbolTime, Rest, Mark, OnEstimate, Adds, SoundTurns;
    var t, els := turns[i].t, turns[i].sym.elements;
    ps, at := sent, start;
    StandingOpen(turns, begin, i, sent, before, keyed, prevChar);
    assert Rest(t, els, 0) == SymbolTime(t, els) by { RestOf(t, els, 0); }
    for j := 0 to |els|
      invariant Chain(turns, ps) && Opens(turns, ps, begin)
      invariant |ps| == |sent| + j && ps[..|sent|] == sent
      invariant forall k :: |sent| <= k < |ps| ==> ps[k].turn == i && ps[k].el == k - |sent|
      invariant at == if j == 0 then start else ps[|ps| - 1].down
      invariant at + Rest(t, els, j) == start + SymbolTime(t, els)
    {
      RestOf(t, els, j);
      if j > 0 { at := at + t.elementGap; }
      var up := at;
      at := at + Mark(t, els[j]);
      var p := Pulse(up, at, i, j);
      if j == 0 {
        assert ps == sent;
        FirstMark(turns, begin, i, sent, before, keyed, prevChar, p);
      } else {
        LaterMark(turns, begin, ps, p);
      }
      ps := ps + [p];
    }
    RestOf(t, els, |els|);
    assert Adds(turns, i, sent, ps, at) by { SomeElements(turns, i); AddsOf(turns, i, sent, ps, at); }
    StandingMark(turns, begin, i, sent, before, keyed, prevChar, ps, at);
  }

  lemma SomeElements(turns: seq<Turn>, i: nat)
    requires i < |turns| && IsMark(turns[i]) && SoundTurns(turns)
    ensures turns[i].sym.elements != []
  {}

  lemma AddsOf(turns: seq<Turn>, i: nat, sent: seq<Pulse>, ps: seq<Pulse>, at: int)
    requires i < |turns| && IsMark(turns[i]) && turns[i].sym.elements != []
    requires |ps| == |sent| + |turns[i].sym.elements| && ps[..|sent|] == sent
    requires forall k :: |sent| <= k < |ps| ==> ps[k].turn == i && ps[k].el == k - |sent|
    requires at == ps[|ps| - 1].down
    ensures Adds(turns, i, sent, ps, at)
  {}

  // What is still to come of a symbol once j of its elements are keyed.
  function Rest(t: Timing, els: seq<Element>, j: nat): int
    requires j <= |els|
  {
    if j == |els| then 0 else (if j > 0 then t.elementGap else 0) + SymbolTime(t, els[j..])
  }

  lemma RestOf(t: Timing, els: seq<Element>, j: nat)
    requires j <= |els|
    ensures Rest(t, els, j) == if j == |els| then 0 else (if j > 0 then t.elementGap else 0) + Mark(t, els[j]) + Rest(t, els, j + 1)
    ensures j == 0 ==> Rest(t, els, j) == SymbolTime(t, els)
  {
    hide Mark;
    if j < |els| { assert els[j..][1..] == els[j + 1..]; }
    if j == 0 { assert els[0..] == els; }
  }

  // ---- between two turns ----

  lemma StandingStart(turns: seq<Turn>, begin: int)
    ensures Standing(turns, begin, 0, [], begin, false, false)
    ensures OnEstimate(turns, [], begin, 0, begin) && Announced(turns, [], [])
  {
    assert turns[..0] == [];
  }

  lemma StandingOpen(turns: seq<Turn>, begin: int, i: nat, ps: seq<Pulse>, at: int, keyed: bool, prevChar: bool)
    requires Standing(turns, begin, i, ps, at, keyed, prevChar)
    ensures Chain(turns, ps) && Opens(turns, ps, begin)
  {}

  lemma StandingEnd(turns: seq<Turn>, begin: int, ps: seq<Pulse>, at: int, keyed: bool, prevChar: bool)
    requires Standing(turns, begin, |turns|, ps, at, keyed, prevChar)
    ensures Chain(turns, ps) && Opens(turns, ps, begin) && Reaches(turns, ps, |turns|)
    ensures at == StandAt(turns, ps, begin, |turns|)
  {}

  lemma AnnouncedSilent(turns: seq<Turn>, ps: seq<Pulse>, ends: seq<int>, e: int)
    requires Announced(turns, ps, ends)
    ensures Announced(turns, ps, ends + [e])
  {}

  lemma AnnouncedMark(turns: seq<Turn>, sent: seq<Pulse>, ps: seq<Pulse>, ends: seq<int>, at: int)
    requires Announced(turns, sent, ends) && Adds(turns, |ends|, sent, ps, at)
    ensures Announced(turns, ps, ends + [at])
  {
    forall k | 0 <= k < |sent| ensures ps[k] == sent[k] { assert ps[..|sent|][k] == sent[k]; }
  }

  lemma StandJoined(turns: seq<Turn>, keyed: bool, at: int, lo: nat, hi: nat)
    requires lo <= hi <= |turns| && Joined(turns, at, lo, hi)
    ensures Stand(turns, keyed, at, lo, hi) == at
    decreases hi
  {
    if lo < hi { StandJoined(turns, keyed, at, lo, hi - 1); }
  }

  /** A turn that keys nothing moves the schedule on. */
  lemma StandingSilent(turns: seq<Turn>, begin: int, i: nat, ps: seq<Pulse>, at: int, keyed: bool, prevChar: bool)
    requires i < |turns| && !IsMark(turns[i]) && SoundTurns(turns)
    requires Standing(turns, begin, i, ps, at, keyed, prevChar) && OnEstimate(turns, ps, begin, i, at)
    ensures var late := Late(turns[i], at);
      var at1 := if turns[i].Take? then (if keyed then at + turns[i].t.wordGap else at) else if late then turns[i].now else at;
      && Standing(turns, begin, i + 1, ps, at1, keyed, turns[i].Resume? && !late && prevChar)
      && OnEstimate(turns, ps, begin, i + 1, at1)
  {
    hide Chain, OnEstimate;
    if ps != [] && prevChar { StandJoined(turns, true, ps[|ps| - 1].down, ps[|ps| - 1].turn + 1, i); }
    EstimateSilent(turns, begin, i, ps, at, keyed, prevChar);
  }

  lemma FirstMark(turns: seq<Turn>, begin: int, i: nat, ps: seq<Pulse>, at: int, keyed: bool, prevChar: bool, p: Pulse)
    requires i < |turns| && IsMark(turns[i]) && turns[i].sym.elements != []
    requires Standing(turns, begin, i, ps, at, keyed, prevChar)
    requires p.turn == i && p.el == 0 && p.up == (at + if prevChar then turns[i].t.charGap else 0)
    requires p.down == p.up + Mark(turns[i].t, turns[i].sym.elements[0])
    ensures Chain(turns, ps + [p]) && Opens(turns, ps + [p], begin)
  {
    if ps != [] && prevChar { StandJoined(turns, true, ps[|ps| - 1].down, ps[|ps| - 1].turn + 1, i); }
    hide Chain, Mark, Stand, Joined;
    ChainPush(turns, ps, p);
    if ps != [] { assert (ps + [p])[0] == ps[0]; }
  }

  lemma LaterMark(turns: seq<Turn>, begin: int, ps: seq<Pulse>, p: Pulse)
    requires Chain(turns, ps) && Opens(turns, ps, begin) && ps != []
    requires p.turn == ps[|ps| - 1].turn && p.el == ps[|ps| - 1].el + 1
    requires p.turn < |turns| && IsMark(turns[p.turn]) && p.el < |turns[p.turn].sym.elements|
    requires p.up == ps[|ps| - 1].down + turns[p.turn].t.elementGap
    requires p.down == p.up + Mark(turns[p.turn].t, turns[p.turn].sym.elements[p.el])
    ensures Chain(turns, ps + [p]) && Opens(turns, ps + [p], begin)
  {
    hide Chain, Mark;
    ChainPush(turns, ps, p);
    assert (ps + [p])[0] == ps[0];
  }

  lemma ChainPush(turns: seq<Turn>, ps: seq<Pulse>, p: Pulse)
    requires Chain(turns, ps) && Exact(turns, p)
    requires ps != [] ==> Follows(turns, ps[|ps| - 1], p)
    ensures Chain(turns, ps + [p])
  {
    assert (ps + [p])[..|ps|] == ps;
  }

  lemma StandingMark(turns: seq<Turn>, begin: int, i: nat, sent: seq<Pulse>, before: int, keyed: bool, prevChar: bool,
                     ps: seq<Pulse>, at: int)
    requires i < |turns| && IsMark(turns[i]) && SoundTurns(turns)
    requires Standing(turns, begin, i, sent, before, keyed, prevChar) && OnEstimate(turns, sent, begin, i, before)
    requires Chain(turns, ps) && Opens(turns, ps, begin) && Adds(turns, i, sent, ps, at)
    requires at == before + (if prevChar then turns[i].t.charGap else 0) + SymbolTime(turns[i].t, turns[i].sym.elements)
    ensures Standing(turns, begin, i + 1, ps, at, true, true) && OnEstimate(turns, ps, begin, i + 1, at)
  {
    hide Chain, OnEstimate, SymbolTime;
    EstimateMark(turns, begin, i, sent, before, keyed, prevChar, ps, at);
  }

  // ---- on time, at one speed ----

  lemma EstimateSilent(turns: seq<Turn>, begin: int, n: nat, ps: seq<Pulse>, at: int, keyed: bool, prevChar: bool)
    requires n < |turns| && !IsMark(turns[n]) && SoundTurns(turns)
    requires Standing(turns, begin, n, ps, at, keyed, prevChar) && OnEstimate(turns, ps, begin, n, at)
    ensures OnEstimate(turns, ps, begin, n + 1, if turns[n].Take? && keyed then at + turns[n].t.wordGap
                                                else if Late(turns[n], at) then turns[n].now else at)
  {
    hide Chain, SymbolsTime;
    forall t | Uniform(turns, t, n + 1) && KeepsUp(turns, ps, begin, n + 1)
      ensures SymbolsTime(t, Taken(turns[..n + 1]))
           == SymbolsTime(t, Taken(turns[..n])) + (if turns[n].Take? && keyed then t.wordGap else 0)
      ensures turns[n].t == t && Uniform(turns, t, n) && KeepsUp(turns, ps, begin, n) && !Late(turns[n], at)
    {
      TakenTime(turns, begin, n, ps, at, keyed, prevChar, t);
    }
  }

  lemma EstimateMark(turns: seq<Turn>, begin: int, n: nat, sent: seq<Pulse>, before: int, keyed: bool, prevChar: bool,
                     ps: seq<Pulse>, at: int)
    requires n < |turns| && IsMark(turns[n]) && SoundTurns(turns)
    requires Standing(turns, begin, n, sent, before, keyed, prevChar) && OnEstimate(turns, sent, begin, n, before)
    requires Adds(turns, n, sent, ps, at)
    requires at == before + (if prevChar then turns[n].t.charGap else 0) + SymbolTime(turns[n].t, turns[n].sym.elements)
    ensures OnEstimate(turns, ps, begin, n + 1, at)
  {
    hide Chain, SymbolsTime, SymbolTime, Adds;
    forall t | Uniform(turns, t, n + 1) && KeepsUp(turns, ps, begin, n + 1)
      ensures SymbolsTime(t, Taken(turns[..n + 1]))
           == SymbolsTime(t, Taken(turns[..n])) + (if prevChar then t.charGap else 0) + SymbolTime(t, turns[n].sym.elements)
      ensures turns[n].t == t && Uniform(turns, t, n) && KeepsUp(turns, sent, begin, n)
    {
      KeptBefore(turns, begin, n, sent, ps, at);
      TakenTime(turns, begin, n, sent, before, keyed, prevChar, t);
    }
  }

  lemma KeptBefore(turns: seq<Turn>, begin: int, n: nat, sent: seq<Pulse>, ps: seq<Pulse>, at: int)
    requires Adds(turns, n, sent, ps, at) && KeepsUp(turns, ps, begin, n + 1)
    ensures KeepsUp(turns, sent, begin, n)
  {
    forall k | 0 <= k < n ensures StandAt(turns, ps, begin, k) == StandAt(turns, sent, begin, k) {
      StandBefore(turns, begin, k, sent, ps, n);
    }
  }

  lemma StandBefore(turns: seq<Turn>, begin: int, k: nat, sent: seq<Pulse>, ps: seq<Pulse>, n: nat)
    requires k < n <= |turns| && |sent| <= |ps| && ps[..|sent|] == sent
    requires forall j :: |sent| <= j < |ps| ==> ps[j].turn == n
    ensures StandAt(turns, ps, begin, k) == StandAt(turns, sent, begin, k)
    decreases |ps|
  {
    if |ps| == |sent| {
      assert ps == sent;
    } else {
      assert ps[..|ps| - 1][..|sent|] == sent;
      StandBefore(turns, begin, k, sent, ps[..|ps| - 1], n);
    }
  }

  /** What the next turn adds to the estimate of the symbols before it. */
  lemma TakenTime(turns: seq<Turn>, begin: int, n: nat, ps: seq<Pulse>, at: int, keyed: bool, prevChar: bool, t: Timing)
    requires n < |turns| && Standing(turns, begin, n, ps, at, keyed, prevChar) && SoundTurns(turns)
    requires KeepsUp(turns, ps, begin, n)
    ensures var u := turns[n];
      SymbolsTime(t, Taken(turns[..n + 1])) == SymbolsTime(t, Taken(turns[..n]))
        + (if u.Resume? then 0
           else if u.sym.kind == SpaceKind then (if keyed then t.wordGap else 0)
           else (if prevChar then t.charGap else 0) + SymbolTime(t, u.sym.elements))
  {
    TakenNext(turns, n);
    hide SymbolTime, Chain;
    if turns[n].Take? {
      var syms, sym := Taken(turns[..n]), turns[n].sym;
      TakenEdges(turns, begin, n, ps, at, keyed, prevChar);
      TimeConcat(t, syms, [sym], false, false);
      assert [sym][1..] == [];
    } else {
      assert Taken(turns[..n + 1]) == Taken(turns[..n]);
    }
  }

  lemma TakenNext(turns: seq<Turn>, n: nat)
    requires n < |turns|
    ensures Taken(turns[..n + 1]) == Taken(turns[..n]) + (if turns[n].Take? then [turns[n].sym] else [])
  {
    assert turns[..n + 1][..n] == turns[..n];
  }

  lemma TakenEdges(turns: seq<Turn>, begin: int, n: nat, ps: seq<Pulse>, at: int, keyed: bool, prevChar: bool)
    requires n <= |turns| && Standing(turns, begin, n, ps, at, keyed, prevChar) && KeepsUp(turns, ps, begin, n)
    ensures Keys(Taken(turns[..n])) <==> keyed
    ensures EndsInMark(Taken(turns[..n])) <==> prevChar
  {
    TakenKeys(turns, n);
    hide Taken;
    if ps != [] {
      var q := ps[|ps| - 1];
      var lo := q.turn + 1;
      forall k | lo <= k < n ensures !Behind(turns, q.down, lo, k) {
        assert !Late(turns[k], StandAt(turns, ps, begin, k));
      }
      JoinedOnTime(turns, q.down, q.turn + 1, n);
      TakenEnds(turns, n, q.turn);
    }
    hide *;
  }

  lemma {:induction false} TakenKeys(turns: seq<Turn>, n: nat)
    requires n <= |turns|
    ensures Keys(Taken(turns[..n])) <==> exists k :: 0 <= k < n && IsMark(turns[k])
  {
    if n > 0 {
      TakenKeys(turns, n - 1);
      TakenNext(turns, n - 1);
      KeysPush(Taken(turns[..n - 1]), turns[n - 1]);
    }
  }

  lemma KeysPush(syms: seq<Symbol>, u: Turn)
    ensures Keys(syms + (if u.Take? then [u.sym] else [])) <==> Keys(syms) || IsMark(u)
  {
    var all := syms + (if u.Take? then [u.sym] else []);
    assert forall k :: 0 <= k < |syms| ==> all[k] == syms[k];
    assert IsMark(u) ==> all[|syms|].kind != SpaceKind;
  }

  lemma {:induction false} TakenEnds(turns: seq<Turn>, n: nat, m: nat)
    requires m < n <= |turns| && IsMark(turns[m]) && Silent(turns, m + 1, n)
    ensures EndsInMark(Taken(turns[..n])) <==> forall k :: m < k < n ==> turns[k].Resume?
  {
    TakenNext(turns, n - 1);
    hide Taken;
    if m < n - 1 { TakenEnds(turns, n - 1, m); }
  }

  lemma {:induction false} JoinedOnTime(turns: seq<Turn>, at: int, lo: nat, hi: nat)
    requires lo <= hi <= |turns|
    requires forall k :: lo <= k < hi ==> !Behind(turns, at, lo, k)
    ensures Joined(turns, at, lo, hi) <==> forall k :: lo <= k < hi ==> turns[k].Resume?
    decreases hi
  {
    if lo < hi {
      JoinedOnTime(turns, at, lo, hi - 1);
      assert !Behind(turns, at, lo, hi - 1);
      if Joined(turns, at, lo, hi - 1) { StandJoined(turns, true, at, lo, hi - 1); }
    }
  }

  /** What the keyer queues is what a schedule asks for, and takes as long as the estimate of its
      text says. */
  lemma QueuedText(text: string, wpm: int, weight: int)
    requires ParseFrom(text, 0, false).Ok?
    ensures var syms := ParseFrom(text, 0, false).value;
      Sound(syms) && SymbolsTime(NewTiming(wpm, weight), syms) == EstimateTime(text, wpm, weight)
  {
    hide ParseFrom, NewTiming, SymbolsTime;
    ParsedSymbolsSound(text, 0, false);
    Chunks.StrictIsTolerant(text, 0);
  }

  // ---- what the chain means ----

  /** Any two successive marks, wherever they stand. */
  lemma {:induction false} ChainAt(turns: seq<Turn>, ps: seq<Pulse>, i: nat)
    requires Chain(turns, ps) && i < |ps|
    ensures Exact(turns, ps[i])
    ensures i + 1 < |ps| ==> Follows(turns, ps[i], ps[i + 1])
  {
    if i + 1 < |ps| { ChainAt(turns, ps[..|ps| - 1], i); }
  }

  /** The word gaps of the spaces taken from lo to hi. */
  function WordGaps(turns: seq<Turn>, lo: nat, hi: nat): int
    requires lo <= hi <= |turns|
    decreases hi
  {
    if lo == hi then 0 else WordGaps(turns, lo, hi - 1) + (if turns[hi - 1].Take? then turns[hi - 1].t.wordGap else 0)
  }

  /** No clock runs back between two readings, and no letter gap is negative. */
  predicate Clocked(turns: seq<Turn>) {
    forall k :: 0 <= k < |turns| ==> turns[k].t.charGap >= 0 && (turns[k].Resume? ==> turns[k].seen <= turns[k].now)
  }

  lemma {:induction false} OnTimeSilence(turns: seq<Turn>, at: int, lo: nat, hi: nat)
    requires lo <= hi <= |turns| && forall k :: lo <= k < hi ==> !Behind(turns, at, lo, k)
    ensures Stand(turns, true, at, lo, hi) == at + WordGaps(turns, lo, hi)
    decreases hi
  {
    if lo < hi {
      OnTimeSilence(turns, at, lo, hi - 1);
      assert !Behind(turns, at, lo, hi - 1);
    }
  }

  /** Text that is late starts the silence over, and never shortens it. */
  lemma {:induction false} LateSilence(turns: seq<Turn>, at: int, lo: nat, k: nat, hi: nat)
    requires lo <= k < hi <= |turns| && Clocked(turns)
    requires Behind(turns, at, lo, k) && forall j :: k < j < hi ==> !Behind(turns, at, lo, j)
    ensures Stand(turns, true, at, lo, hi) == turns[k].now + WordGaps(turns, k + 1, hi)
    ensures Stand(turns, true, at, lo, hi) > at + WordGaps(turns, lo, hi) + turns[k].t.charGap
    decreases hi
  {
    if k < hi - 1 {
      LateSilence(turns, at, lo, k, hi - 1);
      assert !Behind(turns, at, lo, hi - 1);
    } else {
      NeverShorter(turns, at, lo, k);
    }
  }

  lemma {:induction false} NeverShorter(turns: seq<Turn>, at: int, lo: nat, hi: nat)
    requires lo <= hi <= |turns| && Clocked(turns)
    ensures Stand(turns, true, at, lo, hi) >= at + WordGaps(turns, lo, hi)
    decreases hi
  {
    if lo < hi { NeverShorter(turns, at, lo, hi - 1); }
  }

  /** The silence between two successive symbols' marks: while text keeps up, a letter gap or one
      word gap for each space, whatever was awaited in between; once text was late, the spaces
      after the last such moment, counted from it, and that is more than the spaces and a letter
      gap. */
  lemma SilenceBetween(turns: seq<Turn>, ps: seq<Pulse>, i: nat)
    requires Chain(turns, ps) && i + 1 < |ps| && ps[i].turn < ps[i + 1].turn && Clocked(turns)
    ensures var p, q := ps[i], ps[i + 1]; var lo := p.turn + 1;
      && q.turn < |turns|
      && ((forall k :: lo <= k < q.turn ==> !Behind(turns, p.down, lo, k)) ==>
            q.up - p.down == if exists k :: lo <= k < q.turn && turns[k].Take? then WordGaps(turns, lo, q.turn)
                             else turns[q.turn].t.charGap)
      && (forall k :: lo <= k < q.turn && Behind(turns, p.down, lo, k) && (forall j :: k < j < q.turn ==> !Behind(turns, p.down, lo, j)) ==>
            && q.up == turns[k].now + WordGaps(turns, k + 1, q.turn)
            && q.up - p.down > WordGaps(turns, lo, q.turn) + turns[k].t.charGap)
  {
    ChainAt(turns, ps, i);
    hide Chain, Stand, Exact;
    var p, q := ps[i], ps[i + 1];
    var lo := p.turn + 1;
    if forall k :: lo <= k < q.turn ==> !Behind(turns, p.down, lo, k) {
      OnTimeSilence(turns, p.down, lo, q.turn);
      OnTimeJoins(turns, p.down, lo, q.turn);
    }
    forall k | lo <= k < q.turn && Behind(turns, p.down, lo, k) && (forall j :: k < j < q.turn ==> !Behind(turns, p.down, lo, j))
      ensures q.up == turns[k].now + WordGaps(turns, k + 1, q.turn)
      ensures q.up - p.down > WordGaps(turns, lo, q.turn) + turns[k].t.charGap
    {
      LateSilence(turns, p.down, lo, k, q.turn);
      LateParts(turns, p.down, lo, k, q.turn);
    }
  }

  lemma OnTimeJoins(turns: seq<Turn>, at: int, lo: nat, hi: nat)
    requires lo <= hi <= |turns| && forall k :: lo <= k < hi ==> !Behind(turns, at, lo, k)
    ensures Joined(turns, at, lo, hi) <==> !exists k :: lo <= k < hi && turns[k].Take?
  {
    hide Stand, Late;
    JoinedOnTime(turns, at, lo, hi);
  }

  lemma LateParts(turns: seq<Turn>, at: int, lo: nat, k: nat, hi: nat)
    requires lo <= k < hi <= |turns| && Behind(turns, at, lo, k)
    ensures !Joined(turns, at, lo, hi)
  {
    if Joined(turns, at, lo, hi) { StandJoined(turns, true, at, lo, k); }
  }

  // ---- what is keyed ----

  // The elements of the first n turns.
  function ElementsTo(turns: seq<Turn>, n: nat): seq<Element>
    requires n <= |turns|
  {
    if n == 0 then [] else ElementsTo(turns, n - 1) + ElementsAt(turns[n - 1])
  }

  lemma {:induction false} ElementsTaken(turns: seq<Turn>, n: nat)
    requires n <= |turns|
    ensures ElementsTo(turns, n) == AllElements(Taken(turns[..n]))
  {
    if n > 0 {
      ElementsTaken(turns, n - 1);
      TakenNext(turns, n - 1);
      hide Taken;
      var syms := Taken(turns[..n - 1]);
      if turns[n - 1].Take? { assert (syms + [turns[n - 1].sym])[..|syms|] == syms; } else { assert syms + [] == syms; }
    }
  }

  // The element a mark keys, if it keys one.
  function ElementOf(turns: seq<Turn>, p: Pulse): seq<Element> {
    if p.turn < |turns| && p.el < |ElementsAt(turns[p.turn])| then [ElementsAt(turns[p.turn])[p.el]] else []
  }

  function Keyed(turns: seq<Turn>, ps: seq<Pulse>): seq<Element> {
    if ps == [] then [] else Keyed(turns, ps[..|ps| - 1]) + ElementOf(turns, ps[|ps| - 1])
  }

  /** The elements ahead of the one p keys. */
  function TextBefore(turns: seq<Turn>, p: Pulse): seq<Element>
    requires p.turn < |turns| && p.el < |ElementsAt(turns[p.turn])|
  {
    ElementsTo(turns, p.turn) + ElementsAt(turns[p.turn])[..p.el]
  }

  /** Up to any mark, the marks keyed are exactly the elements up to there. */
  lemma {:induction false} KeyedUpTo(turns: seq<Turn>, ps: seq<Pulse>, begin: int)
    requires Chain(turns, ps) && Opens(turns, ps, begin) && ps != [] && SoundTurns(turns)
    ensures Exact(turns, ps[|ps| - 1])
    ensures Keyed(turns, ps) == TextBefore(turns, ps[|ps| - 1]) + ElementOf(turns, ps[|ps| - 1])
  {
    var q, front := ps[|ps| - 1], ps[..|ps| - 1];
    if front == [] {
      SilenceKeysNothing(turns, 0, q.turn);
    } else {
      ChainFront(turns, ps, begin);
      hide Chain, Opens, Follows, Exact, TextBefore, ElementOf, SoundTurns;
      KeyedUpTo(turns, front, begin);
      KeyedBetween(turns, front[|front| - 1], q);
    }
  }

  lemma ChainFront(turns: seq<Turn>, ps: seq<Pulse>, begin: int)
    requires Chain(turns, ps) && Opens(turns, ps, begin) && |ps| > 1
    ensures var front := ps[..|ps| - 1];
      && Chain(turns, front) && Opens(turns, front, begin)
      && Exact(turns, front[|front| - 1]) && Exact(turns, ps[|ps| - 1])
      && Follows(turns, front[|front| - 1], ps[|ps| - 1])
  {
    hide Exact, Follows, Stand, Silent;
  }

  lemma KeyedBetween(turns: seq<Turn>, p: Pulse, q: Pulse)
    requires Follows(turns, p, q) && Exact(turns, p) && Exact(turns, q) && SoundTurns(turns)
    ensures TextBefore(turns, p) + ElementOf(turns, p) == TextBefore(turns, q)
  {
    hide Joined, Stand, Mark;
    var els := ElementsAt(turns[p.turn]);
    assert els[..p.el + 1] == els[..p.el] + [els[p.el]];
    if p.turn < q.turn {
      SilenceKeysNothing(turns, p.turn + 1, q.turn);
      assert els[..p.el + 1] == els;
    }
  }

  lemma {:induction false} SilenceKeysNothing(turns: seq<Turn>, lo: nat, hi: nat)
    requires lo <= hi && Silent(turns, lo, hi) && SoundTurns(turns)
    ensures ElementsTo(turns, hi) == ElementsTo(turns, lo)
    decreases hi
  {
    if lo < hi {
      SilenceKeysNothing(turns, lo, hi - 1);
      assert ElementsAt(turns[hi - 1]) == [];
    }
  }

  /** The schedule keys the text: every element of every symbol once, in order. */
  lemma KeysTheText(turns: seq<Turn>, ps: seq<Pulse>, begin: int)
    requires Chain(turns, ps) && Opens(turns, ps, begin) && Reaches(turns, ps, |turns|) && SoundTurns(turns)
    ensures Keyed(turns, ps) == AllElements(Taken(turns)) && |ps| == |AllElements(Taken(turns))|
  {
    hide *;
    ElementsTaken(turns, |turns|);
    assert turns[..|turns|] == turns;
    OneEach(turns, ps);
    KeysEach(turns, ps, begin);
  }

  lemma KeysEach(turns: seq<Turn>, ps: seq<Pulse>, begin: int)
    requires Chain(turns, ps) && Opens(turns, ps, begin) && Reaches(turns, ps, |turns|) && SoundTurns(turns)
    ensures Keyed(turns, ps) == ElementsTo(turns, |turns|)
  {
    hide Chain, Opens, SoundTurns, Silent, TextBefore, ElementOf;
    if ps == [] {
      SilenceKeysNothing(turns, 0, |turns|);
    } else {
      var q := ps[|ps| - 1];
      KeyedUpTo(turns, ps, begin);
      LastKeyed(turns, q);
      SilenceKeysNothing(turns, q.turn + 1, |turns|);
      hide Keyed, ElementsTo;
    }
  }

  lemma LastKeyed(turns: seq<Turn>, q: Pulse)
    requires q.turn < |turns| && q.el + 1 == |ElementsAt(turns[q.turn])|
    ensures TextBefore(turns, q) + ElementOf(turns, q) == ElementsTo(turns, q.turn + 1)
  {
    var els := ElementsAt(turns[q.turn]);
    assert els[..q.el] + [els[q.el]] == els;
  }

  lemma {:induction false} OneEach(turns: seq<Turn>, ps: seq<Pulse>)
    requires Chain(turns, ps)
    ensures |Keyed(turns, ps)| == |ps|
  {
    if ps != [] { OneEach(turns, ps[..|ps| - 1]); }
  }

  // ---- no two marks touch ----

  /** At speeds that have a unit no two marks touch, and none starts before keying may begin. */
  lemma {:induction false} MarksApart(turns: seq<Turn>, ps: seq<Pulse>, begin: int, i: nat, j: nat)
    requires Chain(turns, ps) && Opens(turns, ps, begin) && i < j < |ps|
    requires Clocked(turns) && forall k :: 0 <= k < |turns| ==> Positive(turns[k].t)
    ensures begin <= ps[i].up < ps[i].down < ps[j].up < ps[j].down
    decreases j
  {
    hide *;
    MarkPlace(turns, ps, begin, j);
    MarkPlace(turns, ps, begin, i);
    if i < j - 1 { MarksApart(turns, ps, begin, i, j - 1); }
    if i > 0 { MarksApart(turns, ps, begin, 0, i); }
  }

  lemma MarkPlace(turns: seq<Turn>, ps: seq<Pulse>, begin: int, j: nat)
    requires Chain(turns, ps) && Opens(turns, ps, begin) && j < |ps|
    requires Clocked(turns) && forall k :: 0 <= k < |turns| ==> Positive(turns[k].t)
    ensures ps[j].up < ps[j].down
    ensures if j == 0 then begin <= ps[0].up else ps[j - 1].down < ps[j].up
  {
    hide Chain, Follows;
    ChainAt(turns, ps, j);
    if j == 0 {
      OpensLate(turns, begin, ps[0].turn);
    } else {
      ChainAt(turns, ps, j - 1);
      GapPositive(turns, ps[j - 1], ps[j]);
    }
    hide Stand, Clocked;
  }

  lemma {:induction false} OpensLate(turns: seq<Turn>, begin: int, hi: nat)
    requires hi <= |turns| && Clocked(turns)
    ensures Stand(turns, false, begin, 0, hi) >= begin
  {
    if hi > 0 { OpensLate(turns, begin, hi - 1); }
  }

  lemma GapPositive(turns: seq<Turn>, p: Pulse, q: Pulse)
    requires Follows(turns, p, q) && Clocked(turns) && forall k :: 0 <= k < |turns| ==> Positive(turns[k].t)
    ensures p.down < q.up
  {
    if p.turn < q.turn && !Joined(turns, p.down, p.turn + 1, q.turn) {
      StandGrows(turns, p.down, p.turn + 1, q.turn);
    }
    hide Stand, Joined;
  }

  lemma {:induction false} StandGrows(turns: seq<Turn>, at: int, lo: nat, hi: nat)
    requires lo <= hi <= |turns| && Clocked(turns) && forall k :: 0 <= k < |turns| ==> Positive(turns[k].t)
    ensures Stand(turns, true, at, lo, hi) >= at
    ensures !Joined(turns, at, lo, hi) ==> Stand(turns, true, at, lo, hi) > at
    decreases hi
  {
    if lo < hi {
      StandGrows(turns, at, lo, hi - 1);
      if Joined(turns, at, lo, hi - 1) { StandJoined(turns, true, at, lo, hi - 1); }
    }
  }
}

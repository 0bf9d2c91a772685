/** Element timing arithmetic (internal/morse/timing.go). Durations are in nanoseconds. */
module Timing {
  import opened Basics
  import opened Morse

  const MIN_WEIGHT := 20
  const MAX_WEIGHT := 80
  const NEUTRAL_WEIGHT := 50
  const MINUTE_OF_UNITS := 1_200_000_000  // 1200 ms: the dot unit at one word a minute

  datatype Timing = Timing(
    unit: int, dit: int, dah: int, elementGap: int, charGap: int, wordGap: int)

  function UnitDuration(wpm: int): int {
    if wpm <= 0 then 0 else MINUTE_OF_UNITS / wpm
  }

  /** Division of the source language: it truncates toward zero. */
  function TruncDiv(a: int, b: int): int
    requires b > 0
  {
    if a >= 0 then a / b else -((-a) / b)
  }

  function Min(a: int, b: int): int { if a < b then a else b }
  function Max(a: int, b: int): int { if a > b then a else b }

  function Shift(wpm: int, weight: int): int {
    var w := if weight == 0 then NEUTRAL_WEIGHT else weight;
    TruncDiv(UnitDuration(wpm) * (Min(Max(w, MIN_WEIGHT), MAX_WEIGHT) - NEUTRAL_WEIGHT), 50)
  }

  function NewTiming(wpm: int, weight: int): Timing {
    var unit, shift := UnitDuration(wpm), Shift(wpm, weight);
    if unit == 0 then Timing(0, 0, 0, 0, 0, 0)
    else Timing(unit, unit + shift, 3 * unit + shift, unit - shift, 3 * unit - shift, 7 * unit - shift)
  }

  function Mark(t: Timing, e: Element): int {
    if e == Dash then t.dah else t.dit
  }

  /** Marks and gaps of one symbol, from its first mark to the end of its last. */
  function SymbolTime(t: Timing, els: seq<Element>): int {
    if els == [] then 0
    else if |els| == 1 then Mark(t, els[0])
    else Mark(t, els[0]) + t.elementGap + SymbolTime(t, els[1..])
  }

  /** The rest of a transmission, given whether anything was keyed and whether the symbol
      before was a character. */
  function TimeFrom(t: Timing, syms: seq<Symbol>, keyed: bool, prevChar: bool): int {
    if syms == [] then 0
    else if syms[0].kind == SpaceKind then
      (if keyed then t.wordGap else 0) + TimeFrom(t, syms[1..], keyed, false)
    else
      (if prevChar then t.charGap else 0) + SymbolTime(t, syms[0].elements) + TimeFrom(t, syms[1..], true, true)
  }

  function SymbolsTime(t: Timing, syms: seq<Symbol>): int { TimeFrom(t, syms, false, false) }

  /** Whether anything is keyed after syms. */
  predicate Keys(syms: seq<Symbol>) { exists i :: 0 <= i < |syms| && syms[i].kind != SpaceKind }

  predicate EndsInMark(syms: seq<Symbol>) { syms != [] && syms[|syms| - 1].kind != SpaceKind }

  // ---- the loops ----

  method SymbolDuration(t: Timing, s: Symbol) returns (d: int)
    ensures d == SymbolTime(t, s.elements)
  {
    d := 0;
    for i := 0 to |s.elements|
      invariant SymbolTime(t, s.elements)
             == d + (if 0 < i < |s.elements| then t.elementGap else 0) + SymbolTime(t, s.elements[i..])
    {
      if i > 0 { d := d + t.elementGap; }
      d := d + Mark(t, s.elements[i]);
      assert s.elements[i..][1..] == s.elements[i + 1..];
    }
  }

  method SymbolsDuration(t: Timing, syms: seq<Symbol>) returns (total: int)
    ensures total == SymbolsTime(t, syms)
  {
    total := 0;
    var keyed, prevChar := false, false;
    for i := 0 to |syms|
      invariant SymbolsTime(t, syms) == total + TimeFrom(t, syms[i..], keyed, prevChar)
    {
      var s := syms[i];
      assert syms[i..][1..] == syms[i + 1..];
      if s.kind == SpaceKind {
        if keyed { total := total + t.wordGap; }
        prevChar := false;
      } else {
        if prevChar { total := total + t.charGap; }
        var d := SymbolDuration(t, s);
        total := total + d;
        keyed, prevChar := true, true;
      }
    }
  }

  /** Estimate: the tolerant parse cannot fail, so every text has a duration. */
  method Estimate(text: string, wpm: int, weight: int) returns (d: int)
    ensures d == EstimateTime(text, wpm, weight) && d >= 0
  {
    var syms := Parse(text, true);
    TolerantParses(text, 0);
    d := SymbolsDuration(NewTiming(wpm, weight), syms.value);
    GapsPositive(wpm, weight);
    TimeNonNegative(NewTiming(wpm, weight), syms.value, false, false);
  }

  function EstimateTime(text: string, wpm: int, weight: int): int {
    TolerantParses(text, 0);
    SymbolsTime(NewTiming(wpm, weight), ParseFrom(text, 0, true).value)
  }

  // ---- gaps stay positive ----

  predicate Positive(t: Timing) {
    t.dit > 0 && t.dah > 0 && t.elementGap > 0 && t.charGap > 0 && t.wordGap > 0
  }

  /** However heavy the weighting, no mark and no gap closes up, unless the speed is one
      that has no unit at all. */
  lemma GapsPositive(wpm: int, weight: int)
    ensures var t := NewTiming(wpm, weight);
      && (Positive(t) <==> 0 < wpm <= MINUTE_OF_UNITS)
      && (!Positive(t) ==> t == Timing(0, 0, 0, 0, 0, 0))
  {
    var unit := UnitDuration(wpm);
    if 0 < wpm <= MINUTE_OF_UNITS {
      assert unit >= 1;
    } else if wpm > 0 {
      assert unit == 0;
    }
    ShiftBound(unit, wpm, weight);
  }

  lemma ShiftBound(unit: int, wpm: int, weight: int)
    requires unit == UnitDuration(wpm)
    ensures unit > 0 ==> -unit < Shift(wpm, weight) < unit
    ensures unit == 0 ==> Shift(wpm, weight) == 0
  {
    var w := if weight == 0 then NEUTRAL_WEIGHT else weight;
    var c := Min(Max(w, MIN_WEIGHT), MAX_WEIGHT) - NEUTRAL_WEIGHT;
    assert -30 <= c <= 30;
    ScaledBound(unit, c);
  }

  lemma ScaledBound(unit: int, c: int)
    requires unit >= 0 && -30 <= c <= 30
    ensures unit > 0 ==> -unit < TruncDiv(unit * c, 50) < unit
    ensures unit == 0 ==> TruncDiv(unit * c, 50) == 0
  {
    assert -30 * unit <= unit * c <= 30 * unit;
  }

  lemma {:induction false} TimeNonNegative(t: Timing, syms: seq<Symbol>, keyed: bool, prevChar: bool)
    requires Positive(t) || t == Timing(0, 0, 0, 0, 0, 0)
    ensures TimeFrom(t, syms, keyed, prevChar) >= 0
  {
    if syms != [] {
      SymbolNonNegative(t, syms[0].elements);
      TimeNonNegative(t, syms[1..], if syms[0].kind == SpaceKind then keyed else true, syms[0].kind != SpaceKind);
    }
  }

  lemma {:induction false} SymbolNonNegative(t: Timing, els: seq<Element>)
    requires Positive(t) || t == Timing(0, 0, 0, 0, 0, 0)
    ensures SymbolTime(t, els) >= 0
  {
    if |els| > 1 { SymbolNonNegative(t, els[1..]); }
  }

  // ---- weighting ----

  /** Marks keyed by syms. */
  function Marks(syms: seq<Symbol>): nat {
    if syms == [] then 0 else |syms[0].elements| + Marks(syms[1..])
  }

  /** Gaps charged by syms, of all three kinds. */
  function Gaps(syms: seq<Symbol>, keyed: bool, prevChar: bool): int {
    if syms == [] then 0
    else if syms[0].kind == SpaceKind then (if keyed then 1 else 0) + Gaps(syms[1..], keyed, false)
    else (if prevChar then 1 else 0) + (|syms[0].elements| - 1) + Gaps(syms[1..], true, true)
  }

  /** Spaces that follow a space with a mark somewhere before them. */
  function ExtraSpaces(syms: seq<Symbol>, keyed: bool, prevChar: bool): nat {
    if syms == [] then 0
    else if syms[0].kind == SpaceKind then
      (if keyed && !prevChar then 1 else 0) + ExtraSpaces(syms[1..], keyed, false)
    else ExtraSpaces(syms[1..], true, true)
  }

  /** Only spaces key nothing; true of everything the parser returns. */
  predicate Sound(syms: seq<Symbol>) {
    forall k :: 0 <= k < |syms| ==> (syms[k].kind == SpaceKind <==> syms[k].elements == [])
  }

  /** Weighting moves the total by one shift for every mark no gap pays back. */
  lemma {:induction false} WeightingLaw(wpm: int, weight: int, syms: seq<Symbol>, keyed: bool, prevChar: bool)
    requires Sound(syms) && UnitDuration(wpm) > 0
    ensures TimeFrom(NewTiming(wpm, weight), syms, keyed, prevChar)
         == TimeFrom(NewTiming(wpm, NEUTRAL_WEIGHT), syms, keyed, prevChar)
            + Shift(wpm, weight) * (Marks(syms) - Gaps(syms, keyed, prevChar))
  {
    hide Shift;
    if syms != [] {
      var s := Shift(wpm, weight);
      var k, p := keyed || syms[0].kind != SpaceKind, syms[0].kind != SpaceKind;
      assert Shift(wpm, NEUTRAL_WEIGHT) == 0 by { NeutralShift(wpm); }
      WeightingLaw(wpm, weight, syms[1..], k, p);
      WeightingSymbol(wpm, weight, syms[0].elements);
      var rest := Marks(syms[1..]) - Gaps(syms[1..], k, p);
      var here := Marks(syms) - Gaps(syms, keyed, prevChar) - rest;
      assert s * (here + rest) == s * here + s * rest;
      assert -1 <= here <= 1;
    }
  }

  lemma NeutralShift(wpm: int)
    ensures Shift(wpm, NEUTRAL_WEIGHT) == 0
  {}

  lemma {:induction false} WeightingSymbol(wpm: int, weight: int, els: seq<Element>)
    requires UnitDuration(wpm) > 0
    ensures SymbolTime(NewTiming(wpm, weight), els)
         == SymbolTime(NewTiming(wpm, NEUTRAL_WEIGHT), els) + (if els == [] then 0 else Shift(wpm, weight))
  {
    NeutralShift(wpm);
    if |els| > 1 { WeightingSymbol(wpm, weight, els[1..]); }
  }

  /** Exactly how many marks are not paid back: the last one, if the text ends in a mark,
      less every space that follows a space. */
  lemma {:induction false} MarksLessGaps(syms: seq<Symbol>, keyed: bool, prevChar: bool)
    requires Sound(syms) && (prevChar ==> keyed)
    ensures Marks(syms) - Gaps(syms, keyed, prevChar) + (if prevChar then 1 else 0)
         == (if (if syms == [] then prevChar else EndsInMark(syms)) then 1 else 0) - ExtraSpaces(syms, keyed, prevChar)
  {
    if syms != [] {
      MarksLessGaps(syms[1..], keyed || syms[0].kind != SpaceKind, syms[0].kind != SpaceKind);
    }
  }

  predicate NoAdjacentSpaces(syms: seq<Symbol>) {
    forall i :: 0 <= i < |syms| - 1 ==> !(syms[i].kind == SpaceKind && syms[i + 1].kind == SpaceKind)
  }

  lemma {:induction false} NoExtraSpaces(syms: seq<Symbol>, keyed: bool, prevChar: bool)
    requires NoAdjacentSpaces(syms)
    requires keyed && !prevChar ==> syms == [] || syms[0].kind != SpaceKind
    ensures ExtraSpaces(syms, keyed, prevChar) == 0
  {
    if syms != [] {
      assert |syms| > 1 ==> !(syms[0].kind == SpaceKind && syms[1].kind == SpaceKind);
      NoExtraSpaces(syms[1..], keyed || syms[0].kind != SpaceKind, syms[0].kind != SpaceKind);
    }
  }

  // ---- weighting, read off the text ----

  /** Spaces of the text that follow a space, once something has been keyed. */
  function SurplusSpaces(s: string, keyed: bool, prevChar: bool): nat {
    if s == "" then 0
    else if s[0] == ' ' then (if keyed && !prevChar then 1 else 0) + SurplusSpaces(s[1..], keyed, false)
    else SurplusSpaces(s[1..], true, true)
  }

  predicate EndsKeyed(s: string) { s != "" && s[|s| - 1] != ' ' }

  /** Marks of the text that no gap pays back: one for ending in a mark, less one for every
      surplus space. */
  function Unpaid(s: string): int { (if EndsKeyed(s) then 1 else 0) - SurplusSpaces(s, false, false) }

  lemma TokenOfText(s: string, tolerant: bool)
    requires s != "" && NextToken(s, tolerant).Token?
    ensures var t := NextToken(s, tolerant);
      && (t.sym.kind == SpaceKind <==> s[0] == ' ')
      && (t.sym.kind == SpaceKind ==> t.len == 1)
      && (t.sym.kind != SpaceKind ==> forall k :: 0 <= k < t.len ==> s[k] != ' ')
  {
    hide Pattern;
    var n := LetterRun(s[1..]);
    assert forall k :: 0 < k <= n ==> s[k] == s[1..][k - 1];
  }

  lemma {:induction false} SurplusPastMark(s: string, n: nat, keyed: bool, prevChar: bool)
    requires 0 < n <= |s| && forall k :: 0 <= k < n ==> s[k] != ' '
    ensures SurplusSpaces(s, keyed, prevChar) == SurplusSpaces(s[n..], true, true)
    decreases n
  {
    if n > 1 {
      SurplusPastMark(s[1..], n - 1, true, true);
      assert s[1..][n - 1..] == s[n..];
    }
  }

  /** What the parser makes of spaces is what the text shows. */
  lemma {:induction false} SpacesOfText(s: string, off: nat, tolerant: bool, keyed: bool, prevChar: bool)
    ensures var r := ParseFrom(s, off, tolerant);
      r.Ok? ==>
        && ExtraSpaces(r.value, keyed, prevChar) == SurplusSpaces(s, keyed, prevChar)
        && (EndsInMark(r.value) <==> EndsKeyed(s))
        && (r.value == [] <==> s == "")
    decreases |s|
  {
    hide NextToken;
    if s != "" && ParseFrom(s, off, tolerant).Ok? {
      var Token(sym, n) := NextToken(s, tolerant);
      TokenOfText(s, tolerant);
      var tail := ParseFrom(s[n..], off + n, tolerant).value;
      SpacesOfText(s[n..], off + n, tolerant, keyed || sym.kind != SpaceKind, sym.kind != SpaceKind);
      if sym.kind != SpaceKind { SurplusPastMark(s, n, keyed, prevChar); }
      assert ParseFrom(s, off, tolerant).value == [sym] + tail && ([sym] + tail)[1..] == tail;
      if n < |s| { assert s[n..][|s[n..]| - 1] == s[|s| - 1]; }
    }
  }

  function Abs(x: int): nat { if x < 0 then -x else x }

  lemma ScaledAbs(s: int, k: int)
    ensures Abs(s * k) <= Abs(s) <==> s == 0 || -1 <= k <= 1
  {
    if s != 0 && (k > 1 || k < -1) {
      assert Abs(s * k) >= 2 * Abs(s);
    }
  }

  /** For every text, what weighting does to the total: it adds one shift for every mark no gap
      pays back. So it moves the total by at most one shift exactly when there is no shift, or the
      text's surplus spaces number at most one, or two before a final mark. Single word gaps
      always meet that. */
  lemma WeightingOfText(text: string, tolerant: bool, wpm: int, weight: int)
    requires UnitDuration(wpm) > 0
    ensures var r := ParseFrom(text, 0, tolerant);
      r.Ok? ==>
        var moved := SymbolsTime(NewTiming(wpm, weight), r.value) - SymbolsTime(NewTiming(wpm, NEUTRAL_WEIGHT), r.value);
        && moved == Shift(wpm, weight) * Unpaid(text)
        && Unpaid(text) == (if EndsInMark(r.value) then 1 else 0) - ExtraSpaces(r.value, false, false)
        && (Abs(moved) <= Abs(Shift(wpm, weight)) <==> Shift(wpm, weight) == 0 || -1 <= Unpaid(text) <= 1)
        && (NoAdjacentSpaces(r.value) ==> 0 <= Unpaid(text) <= 1 && Abs(moved) <= Abs(Shift(wpm, weight)))
  {
    hide ParseFrom, Shift, NewTiming, TimeFrom;
    var r := ParseFrom(text, 0, tolerant);
    if r.Ok? {
      ParsedSymbolsSound(text, 0, tolerant);
      WeightingLaw(wpm, weight, r.value, false, false);
      MarksLessGaps(r.value, false, false);
      SpacesOfText(text, 0, tolerant, false, false);
      ScaledAbs(Shift(wpm, weight), Unpaid(text));
      if NoAdjacentSpaces(r.value) { NoExtraSpaces(r.value, false, false); }
    }
  }

  /** Three spaces after a mark: at 20 words a minute, weighting of 60 shortens the total by two
      shifts. */
  lemma WeightingExample()
    ensures Shift(20, 60) == 12_000_000
    ensures EstimateTime("A   ", 20, 60) == EstimateTime("A   ", 20, NEUTRAL_WEIGHT) - 24_000_000
  {
    assert UnitDuration(20) == 60_000_000;
    hide ParseFrom, NewTiming, SymbolsTime;
    ThreeSpaces();
    TolerantParses("A   ", 0);
    WeightingOfText("A   ", true, 20, 60);
    hide Unpaid, Shift, Abs;
  }

  lemma ThreeSpaces()
    ensures Unpaid("A   ") == -2
  {
    var s := "A   ";
    assert s[1..] == "   " && "   "[1..] == "  " && "  "[1..] == " " && " "[1..] == "";
    assert SurplusSpaces("  ", true, false) == 2;
    assert SurplusSpaces(s, false, false) == 2;
  }

  function Plain(r: char): Symbol { Symbol(CharKind, [Upper(r)], Elements(r)) }

  lemma ParsePlain(r: char, rest: string, off: nat)
    requires r != '^' && r != ' ' && Keyable(r)
    ensures ParseFrom(rest, off + 1, true).Ok? && ParseFrom([r] + rest, off, true).Ok?
    ensures ParseFrom([r] + rest, off, true).value == [Plain(r)] + ParseFrom(rest, off + 1, true).value
  {
    hide Pattern;
    TolerantParses(rest, off + 1);
    assert ([r] + rest)[1..] == rest;
  }

  lemma ParisElements()
    ensures Elements('P') == [Dot, Dash, Dash, Dot]
    ensures Elements('A') == [Dot, Dash]
    ensures Elements('R') == [Dot, Dash, Dot]
    ensures Elements('I') == [Dot, Dot]
    ensures Elements('S') == [Dot, Dot, Dot]
  {}

  lemma ShortTimes(t: Timing, u: int, s: int)
    requires t == Timing(u, u + s, 3 * u + s, u - s, 3 * u - s, 7 * u - s)
    ensures SymbolTime(t, [Dot, Dash]) == SymbolTime(t, [Dash, Dot]) == 5 * u + s
    ensures SymbolTime(t, [Dot, Dot]) == 3 * u + s
  {
    assert [Dot, Dash][1..] == [Dash] && [Dash, Dot][1..] == [Dot] && [Dot, Dot][1..] == [Dot];
  }

  lemma ParisUnits(t: Timing, u: int, s: int)
    requires t == Timing(u, u + s, 3 * u + s, u - s, 3 * u - s, 7 * u - s)
    ensures SymbolTime(t, Elements('P')) == 11 * u + s
    ensures SymbolTime(t, Elements('A')) == 5 * u + s
    ensures SymbolTime(t, Elements('R')) == 7 * u + s
    ensures SymbolTime(t, Elements('I')) == 3 * u + s
    ensures SymbolTime(t, Elements('S')) == 5 * u + s
  {
    ParisElements();
    hide Elements;
    ShortTimes(t, u, s);
    assert [Dot, Dash, Dash, Dot][1..] == [Dash, Dash, Dot] && [Dash, Dash, Dot][1..] == [Dash, Dot];
    assert [Dot, Dash, Dot][1..] == [Dash, Dot];
    assert [Dot, Dot, Dot][1..] == [Dot, Dot];
  }

  lemma TimingShape(wpm: int, weight: int)
    requires UnitDuration(wpm) > 0
    ensures var u, s := UnitDuration(wpm), Shift(wpm, weight);
      NewTiming(wpm, weight) == Timing(u, u + s, 3 * u + s, u - s, 3 * u - s, 7 * u - s)
  {}

  const WORD_GAP := Symbol(SpaceKind, " ", [])
  const PARIS: seq<Symbol> := [Plain('P'), Plain('A'), Plain('R'), Plain('I'), Plain('S'), WORD_GAP]

  lemma ParisKeyable()
    ensures Keyable('P') && Keyable('A') && Keyable('R') && Keyable('I') && Keyable('S')
  {}

  lemma RisParses(off: nat)
    ensures ParseFrom("RIS ", off, true) == Ok([Plain('R'), Plain('I'), Plain('S'), WORD_GAP])
  {
    ParisKeyable();
    ParseWordGap(off + 3);
    hide *;
    ParsePlain('S', " ", off + 2);
    assert "S " == ['S'] + " ";
    ParsePlain('I', "S ", off + 1);
    assert "IS " == ['I'] + "S ";
    ParsePlain('R', "IS ", off);
    assert "RIS " == ['R'] + "IS ";
    assert [Plain('R')] + ([Plain('I')] + ([Plain('S')] + [WORD_GAP])) == [Plain('R'), Plain('I'), Plain('S'), WORD_GAP];
  }

  lemma ParisParses(off: nat)
    ensures ParseFrom("PARIS ", off, true) == Ok(PARIS)
  {
    ParisKeyable();
    RisParses(off + 2);
    ParisIs();
    hide *;
    ParsePlain('A', "RIS ", off + 1);
    assert "ARIS " == ['A'] + "RIS ";
    ParsePlain('P', "ARIS ", off);
    assert "PARIS " == ['P'] + "ARIS ";
  }

  lemma ParisIs()
    ensures PARIS == [Plain('P')] + ([Plain('A')] + [Plain('R'), Plain('I'), Plain('S'), WORD_GAP])
  {
    hide Plain;
  }

  lemma ParseWordGap(off: nat)
    ensures ParseFrom(" ", off, true) == Ok([WORD_GAP])
  {
    assert " "[1..] == "" && [WORD_GAP] + [] == [WORD_GAP];
  }

  lemma ParisTime(t: Timing)
    ensures SymbolsTime(t, PARIS) == SymbolTime(t, Elements('P')) + SymbolTime(t, Elements('A')) + SymbolTime(t, Elements('R'))
      + SymbolTime(t, Elements('I')) + SymbolTime(t, Elements('S')) + 4 * t.charGap + t.wordGap
  {
    hide Pattern, Elements, SymbolTime;
    assert PARIS[1..] == [Plain('A'), Plain('R'), Plain('I'), Plain('S'), WORD_GAP];
    assert PARIS[2..] == [Plain('R'), Plain('I'), Plain('S'), WORD_GAP] == PARIS[1..][1..];
    assert PARIS[3..] == [Plain('I'), Plain('S'), WORD_GAP] == PARIS[2..][1..];
    assert PARIS[4..] == [Plain('S'), WORD_GAP] == PARIS[3..][1..];
    assert PARIS[5..] == [WORD_GAP] == PARIS[4..][1..];
    assert TimeFrom(t, PARIS[5..], true, true) == t.wordGap;
    assert TimeFrom(t, PARIS[3..], true, true) == 2 * t.charGap + SymbolTime(t, Elements('I')) + SymbolTime(t, Elements('S')) + t.wordGap;
    assert TimeFrom(t, PARIS[1..], true, true) == 4 * t.charGap + SymbolTime(t, Elements('A')) + SymbolTime(t, Elements('R'))
      + SymbolTime(t, Elements('I')) + SymbolTime(t, Elements('S')) + t.wordGap;
  }

  /** "PARIS " is fifty units at every speed and every weighting. */
  lemma Paris(wpm: int, weight: int)
    requires UnitDuration(wpm) > 0
    ensures EstimateTime("PARIS ", wpm, weight) == 50 * UnitDuration(wpm)
  {
    hide Pattern, Elements, SymbolTime, TimeFrom, NewTiming, Shift;
    ParisParses(0);
    TimingShape(wpm, weight);
    ParisTime(NewTiming(wpm, weight));
    ParisUnits(NewTiming(wpm, weight), UnitDuration(wpm), Shift(wpm, weight));
  }

  // ---- cutting a transmission ----

  /** Leading spaces of a sequence of symbols. */
  function LeadSpaces(syms: seq<Symbol>): (n: nat)
    ensures n <= |syms|
  {
    if syms == [] || syms[0].kind != SpaceKind then 0 else 1 + LeadSpaces(syms[1..])
  }

  /** The silence a rig inserts where b joins something that ends in a mark. */
  function Joint(t: Timing, b: seq<Symbol>): int {
    if b == [] then 0 else if LeadSpaces(b) > 0 then LeadSpaces(b) * t.wordGap else t.charGap
  }

  lemma {:induction false} TimeConcat(t: Timing, a: seq<Symbol>, b: seq<Symbol>, keyed: bool, prevChar: bool)
    ensures TimeFrom(t, a + b, keyed, prevChar)
         == TimeFrom(t, a, keyed, prevChar)
            + TimeFrom(t, b, keyed || Keys(a), if a == [] then prevChar else EndsInMark(a))
  {
    if a == [] {
      assert a + b == b && !Keys(a);
    } else {
      assert (a + b)[1..] == a[1..] + b;
      assert Keys(a) <==> a[0].kind != SpaceKind || Keys(a[1..]) by {
        if Keys(a) && a[0].kind == SpaceKind {
          var i :| 0 <= i < |a| && a[i].kind != SpaceKind;
          assert a[1..][i - 1].kind != SpaceKind;
        }
        if Keys(a[1..]) {
          var i :| 0 <= i < |a[1..]| && a[1..][i].kind != SpaceKind;
          assert a[i + 1].kind != SpaceKind;
        }
      }
      TimeConcat(t, a[1..], b, keyed || a[0].kind != SpaceKind, a[0].kind != SpaceKind);
    }
  }

  /** Joined to a mark, a piece costs what it costs alone and the joint's silence. */
  lemma TimeJoined(t: Timing, b: seq<Symbol>)
    ensures TimeFrom(t, b, true, true) == SymbolsTime(t, b) + Joint(t, b)
  {
    if b != [] && b[0].kind == SpaceKind {
      LeadCost(t, b, true);
      LeadCost(t, b, false);
      assert TimeFrom(t, b, true, true) == TimeFrom(t, b, true, false);
    }
  }

  lemma {:induction false} LeadCost(t: Timing, b: seq<Symbol>, keyed: bool)
    ensures TimeFrom(t, b, keyed, false)
         == (if keyed then LeadSpaces(b) * t.wordGap else 0) + TimeFrom(t, b[LeadSpaces(b)..], true, false)
  {
    hide SymbolTime;
    if b != [] && b[0].kind == SpaceKind {
      LeadCost(t, b[1..], keyed);
      assert b[1..][LeadSpaces(b[1..])..] == b[LeadSpaces(b)..];
    } else {
      assert b[0..] == b;
    }
  }

  // ---- a minute ----

  const MINUTE := 60_000_000_000

  /** The word PARIS and its word gap, n times. */
  function ParisText(n: nat): string { if n == 0 then "" else ParisText(n - 1) + "PARIS " }

  function ParisSyms(n: nat): seq<Symbol> { if n == 0 then [] else ParisSyms(n - 1) + PARIS }

  lemma {:induction false} ParisTextParses(n: nat)
    ensures ParseFrom(ParisText(n), 0, true) == Ok(ParisSyms(n))
    ensures n > 0 ==> ParisText(n) != "" && ParisText(n)[|ParisText(n)| - 1] == ' '
  {
    hide ParseFrom, PARIS;
    if n > 0 {
      var a := ParisText(n - 1);
      ParisTextParses(n - 1);
      SpaceCloses(a);
      hide OpenProsign;
      ParisParses(|a|);
      ParseConcat(a, "PARIS ", 0, true);
    } else {
      NothingParses();
    }
  }

  lemma NothingParses()
    ensures ParseFrom("", 0, true) == Ok([])
  {}

  lemma SpaceCloses(a: string)
    requires a != "" ==> a[|a| - 1] == ' '
    ensures !OpenProsign(a)
  {}

  lemma {:induction false} ParisSymsTime(t: Timing, n: nat)
    ensures SymbolsTime(t, ParisSyms(n)) == n * SymbolsTime(t, PARIS)
    ensures n > 0 ==> ParisSyms(n) != [] && Keys(ParisSyms(n)) && !EndsInMark(ParisSyms(n))
  {
    if n > 0 {
      ParisSymsTime(t, n - 1);
      ParisMore(t, ParisSyms(n - 1), n - 1);
      hide PARIS, TimeFrom, Keys, EndsInMark;
    } else {
      assert SymbolsTime(t, []) == 0;
    }
  }

  lemma ParisMore(t: Timing, a: seq<Symbol>, n: nat)
    requires SymbolsTime(t, a) == n * SymbolsTime(t, PARIS) && (a != [] ==> Keys(a) && !EndsInMark(a))
    ensures SymbolsTime(t, a + PARIS) == (n + 1) * SymbolsTime(t, PARIS)
    ensures a + PARIS != [] && Keys(a + PARIS) && !EndsInMark(a + PARIS)
  {
    TimeConcat(t, a, PARIS, false, false);
    ParisEitherWay(t, Keys(a));
    ParisEnds(a);
    hide PARIS, TimeFrom, Keys, EndsInMark;
    var p := SymbolsTime(t, PARIS);
    assert n * p + p == (n + 1) * p;
  }

  lemma ParisEnds(a: seq<Symbol>)
    ensures a + PARIS != [] && Keys(a + PARIS) && !EndsInMark(a + PARIS)
  {
    hide Pattern, Elements;
    assert (a + PARIS)[|a|] == PARIS[0] && (a + PARIS)[|a + PARIS| - 1] == PARIS[5];
  }

  // It makes no difference whether anything was keyed before.
  lemma ParisEitherWay(t: Timing, keyed: bool)
    ensures TimeFrom(t, PARIS, keyed, false) == SymbolsTime(t, PARIS)
  {
    hide Pattern, Elements, SymbolTime;
    assert PARIS[0] == Plain('P');
  }

  /** What the speed means: at so many words a minute that many words take a minute, short of it
      by less than fifty nanoseconds a word, for the unit is whole; at every weight. */
  lemma AMinute(wpm: int, weight: int)
    requires UnitDuration(wpm) > 0
    ensures MINUTE - 50 * wpm < EstimateTime(ParisText(wpm), wpm, weight) <= MINUTE
  {
    UnitOfMinute(wpm);
    hide *;
    ManyParis(wpm, wpm, weight);
    Fifty(wpm, UnitDuration(wpm));
  }

  lemma Fifty(n: int, u: int)
    ensures n * (50 * u) == 50 * (u * n)
  {}

  lemma ManyParis(n: nat, wpm: int, weight: int)
    requires UnitDuration(wpm) > 0
    ensures EstimateTime(ParisText(n), wpm, weight) == n * (50 * UnitDuration(wpm))
  {
    hide *;
    ParisTextParses(n);
    ParisSymsTime(NewTiming(wpm, weight), n);
    ParisParses(0);
    EstimateIs("PARIS ", wpm, weight);
    EstimateIs(ParisText(n), wpm, weight);
    Paris(wpm, weight);
  }

  lemma EstimateIs(text: string, wpm: int, weight: int)
    requires ParseFrom(text, 0, true).Ok?
    ensures EstimateTime(text, wpm, weight) == SymbolsTime(NewTiming(wpm, weight), ParseFrom(text, 0, true).value)
  {
    hide ParseFrom, SymbolsTime, NewTiming;
  }

  lemma UnitOfMinute(wpm: int)
    requires UnitDuration(wpm) > 0
    ensures wpm > 0 && 50 * (UnitDuration(wpm) * wpm) <= MINUTE < 50 * (UnitDuration(wpm) * wpm) + 50 * wpm
  {
    assert MINUTE_OF_UNITS == UnitDuration(wpm) * wpm + MINUTE_OF_UNITS % wpm;
  }

  // ---- what a weight is ----

  /** A weight moves its share of a unit, truncated toward zero; none is neutral, and what is out
      of range counts as the bound. */
  lemma WeightShare(wpm: int, weight: int)
    ensures var s, u := Shift(wpm, weight), UnitDuration(wpm);
      && (weight == 0 || weight == NEUTRAL_WEIGHT ==> s == 0)
      && (weight != 0 && weight < MIN_WEIGHT ==> s == Shift(wpm, MIN_WEIGHT))
      && (weight > MAX_WEIGHT ==> s == Shift(wpm, MAX_WEIGHT))
      && (NEUTRAL_WEIGHT <= weight <= MAX_WEIGHT ==> 50 * s <= u * (weight - NEUTRAL_WEIGHT) < 50 * s + 50)
      && (MIN_WEIGHT <= weight <= NEUTRAL_WEIGHT ==> s == -Shift(wpm, 2 * NEUTRAL_WEIGHT - weight))
  {
    hide UnitDuration, TruncDiv;
    var u := UnitDuration(wpm);
    Truncated(u * (weight - NEUTRAL_WEIGHT));
    Truncated(0);
    assert u * (NEUTRAL_WEIGHT - NEUTRAL_WEIGHT) == 0;
    if NEUTRAL_WEIGHT <= weight { NoLess(wpm, weight - NEUTRAL_WEIGHT); }
    assert u * (2 * NEUTRAL_WEIGHT - weight - NEUTRAL_WEIGHT) == -(u * (weight - NEUTRAL_WEIGHT));
  }

  lemma Truncated(x: int)
    ensures x >= 0 ==> 50 * TruncDiv(x, 50) <= x < 50 * TruncDiv(x, 50) + 50
    ensures TruncDiv(-x, 50) == -TruncDiv(x, 50) && TruncDiv(0, 50) == 0
  {}

  lemma NoLess(wpm: int, k: nat)
    ensures UnitDuration(wpm) * k >= 0
  {}
}

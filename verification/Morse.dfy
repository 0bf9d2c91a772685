/** The element table and the canonical text parser (internal/morse/morse.go). */
module Morse {
  import opened Basics

  datatype Element = Dot | Dash

  datatype Kind = CharKind | ProsignKind | SpaceKind

  // One parsed unit of canonical text: "A", "^AR" or " ", upper-cased.
  datatype Symbol = Symbol(kind: Kind, text: string, elements: seq<Element>)

  datatype ParseError = CharError(rune: char, offset: nat) | SyntaxError(offset: nat)

  type ParseResult = Result<seq<Symbol>, ParseError>

  // ---- the table ----

  /** The chart, dots and dashes as written; "" for a character that has no entry. */
  function Pattern(r: char): string {
    match r
    case 'A' => ".-" case 'B' => "-..." case 'C' => "-.-." case 'D' => "-.." case 'E' => "."
    case 'F' => "..-." case 'G' => "--." case 'H' => "...." case 'I' => ".." case 'J' => ".---"
    case 'K' => "-.-" case 'L' => ".-.." case 'M' => "--" case 'N' => "-." case 'O' => "---"
    case 'P' => ".--." case 'Q' => "--.-" case 'R' => ".-." case 'S' => "..." case 'T' => "-"
    case 'U' => "..-" case 'V' => "...-" case 'W' => ".--" case 'X' => "-..-" case 'Y' => "-.--"
    case 'Z' => "--.."
    case '0' => "-----" case '1' => ".----" case '2' => "..---" case '3' => "...--" case '4' => "....-"
    case '5' => "....." case '6' => "-...." case '7' => "--..." case '8' => "---.." case '9' => "----."
    case '\'' => ".----." case '"' => ".-..-." case '(' => "-.--." case ')' => "-.--.-"
    case '*' => "-..-" case '+' => ".-.-." case ',' => "--..--" case '-' => "-....-"
    case '.' => ".-.-.-" case '/' => "-..-." case ':' => "---..." case '=' => "-...-"
    case '?' => "..--.." case '@' => ".--.-."
    case _ => ""
  }

  // What an unrecognised character costs in the tolerant parse: the elements of K.
  const NOMINAL: seq<Element> := [Dash, Dot, Dash]

  predicate IsLetter(r: char) { 'A' <= r <= 'Z' || 'a' <= r <= 'z' }

  function Upper(r: char): char {
    if 'a' <= r <= 'z' then r - 'a' + 'A' else r
  }

  function UpperString(s: string): string {
    seq(|s|, i requires 0 <= i < |s| => Upper(s[i]))
  }

  function Decode(p: string): seq<Element> {
    seq(|p|, i requires 0 <= i < |p| => if p[i] == '-' then Dash else Dot)
  }

  predicate Keyable(r: char) { Pattern(Upper(r)) != "" }

  function Elements(r: char): seq<Element> { Decode(Pattern(Upper(r))) }

  /** Every letter has an entry, so a prosign always keys something. */
  lemma LettersAreKeyable()
    ensures forall r: char :: IsLetter(r) ==> Keyable(r)
  {}

  // ---- parsing, as a function ----

  /** How many letters s starts with. */
  function LetterRun(s: string): (n: nat)
    ensures n <= |s|
    ensures forall k :: 0 <= k < n ==> IsLetter(s[k])
    ensures n < |s| ==> !IsLetter(s[n])
  {
    if s == "" || !IsLetter(s[0]) then 0 else 1 + LetterRun(s[1..])
  }

  /** The elements of a run of characters keyed with no gap between characters. */
  function RunElements(s: string): seq<Element> {
    if s == "" then [] else Elements(s[0]) + RunElements(s[1..])
  }

  datatype Token = Token(sym: Symbol, len: nat) | BadRune | BadCaret

  /** The first symbol of s and how many characters it takes. */
  function NextToken(s: string, tolerant: bool): (t: Token)
    requires s != ""
    ensures t.Token? ==> 0 < t.len <= |s|
  {
    if s[0] == '^' then
      var n := LetterRun(s[1..]);
      if n > 0 then Token(Symbol(ProsignKind, "^" + UpperString(s[1..n + 1]), RunElements(s[1..n + 1])), n + 1)
      else if tolerant then Token(Symbol(CharKind, "^", NOMINAL), 1)
      else BadCaret
    else if s[0] == ' ' then Token(Symbol(SpaceKind, " ", []), 1)
    else if Keyable(s[0]) then Token(Symbol(CharKind, [Upper(s[0])], Elements(s[0])), 1)
    else if tolerant then Token(Symbol(CharKind, [s[0]], NOMINAL), 1)
    else BadRune
  }

  function Prepend(head: seq<Symbol>, r: ParseResult): ParseResult {
    if r.Ok? then Ok(head + r.value) else r
  }

  /** The parse of s, its first character standing at offset off of the whole text. */
  function ParseFrom(s: string, off: nat, tolerant: bool): ParseResult {
    if s == "" then Ok([]) else
      match NextToken(s, tolerant)
      case BadRune => Err(CharError(s[0], off))
      case BadCaret => Err(SyntaxError(off))
      case Token(sym, n) => Prepend([sym], ParseFrom(s[n..], off + n, tolerant))
  }

  // ---- parsing, as the loop ----

  /** parse: a left-to-right scan over the runes. */
  method Parse(text: string, tolerant: bool) returns (r: ParseResult)
    ensures r == ParseFrom(text, 0, tolerant)
  {
    hide Pattern, ParseFrom, Prepend;
    var out: seq<Symbol> := [];
    var i := 0;
    ScanStart(text, tolerant);
    while i < |text|
      invariant 0 <= i <= |text|
      invariant ParseFrom(text, 0, tolerant) == Prepend(out, ParseFrom(text[i..], i, tolerant))
    {
      ghost var s := text[i..];
      ScanStep(text, i, out, tolerant);
      var c := text[i];
      if c == '^' {
        var j := LettersEnd(text, i + 1);
        assert s[1..] == text[i + 1..];
        if j == i + 1 {
          if !tolerant { return Err(SyntaxError(i)); }
          out := out + [Symbol(CharKind, "^", NOMINAL)];
          i := i + 1;
        } else {
          assert s[1..j - i] == text[i + 1..j];
          var els := KeyRun(text[i + 1..j]);
          out := out + [Symbol(ProsignKind, "^" + UpperString(text[i + 1..j]), els)];
          i := j;
        }
      } else if c == ' ' {
        out := out + [Symbol(SpaceKind, " ", [])];
        i := i + 1;
      } else if !Keyable(c) {
        if !tolerant { return Err(CharError(c, i)); }
        out := out + [Symbol(CharKind, [c], NOMINAL)];
        i := i + 1;
      } else {
        out := out + [Symbol(CharKind, [Upper(c)], Elements(c))];
        i := i + 1;
      }
    }
    ScanEnd(text, out, tolerant);
    r := Ok(out);
  }

  lemma ScanStart(text: string, tolerant: bool)
    ensures ParseFrom(text, 0, tolerant) == Prepend([], ParseFrom(text[0..], 0, tolerant))
  {
    var whole := ParseFrom(text, 0, tolerant);
    assert text[0..] == text;
    assert whole.Ok? ==> [] + whole.value == whole.value;
  }

  lemma ScanStep(text: string, i: nat, out: seq<Symbol>, tolerant: bool)
    requires i < |text|
    ensures var rest := ParseFrom(text[i..], i, tolerant);
      match NextToken(text[i..], tolerant)
      case BadRune => Prepend(out, rest) == Err(CharError(text[i], i))
      case BadCaret => Prepend(out, rest) == Err(SyntaxError(i))
      case Token(sym, n) => Prepend(out, rest) == Prepend(out + [sym], ParseFrom(text[i + n..], i + n, tolerant))
  {
    hide NextToken;
    if NextToken(text[i..], tolerant).Token? {
      var Token(sym, n) := NextToken(text[i..], tolerant);
      assert text[i..][n..] == text[i + n..];
      var tail := ParseFrom(text[i + n..], i + n, tolerant);
      assert tail.Ok? ==> out + ([sym] + tail.value) == out + [sym] + tail.value;
    }
  }

  lemma ScanEnd(text: string, out: seq<Symbol>, tolerant: bool)
    ensures Prepend(out, ParseFrom(text[|text|..], |text|, tolerant)) == Ok(out)
  {
    assert text[|text|..] == "" && out + [] == out;
  }

  /** Where the run of letters starting at from ends. */
  method LettersEnd(text: string, from: nat) returns (j: nat)
    requires from <= |text|
    ensures from <= j <= |text| && j - from == LetterRun(text[from..])
  {
    j := from;
    while j < |text| && IsLetter(text[j])
      invariant from <= j <= |text|
      invariant LetterRun(text[from..]) == j - from + LetterRun(text[j..])
    {
      j := j + 1;
    }
  }

  /** Prosign: every letter's elements, run together. */
  method KeyRun(name: string) returns (els: seq<Element>)
    ensures els == RunElements(name)
  {
    hide RunElements, Elements;
    els := [];
    RunEnds(name);
    for k := 0 to |name|
      invariant RunElements(name) == els + RunElements(name[k..])
    {
      RunStep(name, k, els);
      els := els + Elements(name[k]);
    }
  }

  lemma RunStep(name: string, k: nat, els: seq<Element>)
    requires k < |name|
    ensures els + RunElements(name[k..]) == els + Elements(name[k]) + RunElements(name[k + 1..])
  {
    hide Elements;
    assert name[k..][1..] == name[k + 1..];
  }

  lemma RunEnds(name: string)
    ensures [] + RunElements(name[0..]) == RunElements(name)
    ensures RunElements(name[|name|..]) == []
  {
    hide Elements;
    assert name[0..] == name;
  }

  // ---- what parsing keeps ----

  /** The canonical source of a parsed sequence. */
  function Source(syms: seq<Symbol>): string {
    if syms == [] then "" else syms[0].text + Source(syms[1..])
  }

  lemma {:induction false} SourceConcat(a: seq<Symbol>, b: seq<Symbol>)
    ensures Source(a + b) == Source(a) + Source(b)
  {
    if a == [] {
      assert a + b == b;
    } else {
      assert (a + b)[1..] == a[1..] + b;
      SourceConcat(a[1..], b);
    }
  }

  lemma TokenText(s: string, tolerant: bool)
    requires s != "" && NextToken(s, tolerant).Token?
    ensures NextToken(s, tolerant).sym.text == UpperString(s[..NextToken(s, tolerant).len])
  {
    hide Pattern;
    LettersAreKeyable();
    var n := LetterRun(s[1..]);
    if s[0] == '^' {
      assert UpperString(s[..n + 1]) == "^" + UpperString(s[1..n + 1]);
    } else {
      assert UpperString(s[..1]) == [Upper(s[0])];
    }
  }

  /** Parsing loses nothing: the symbols spell the text back, upper-cased, so their
      character counts add up to the text's. */
  lemma {:induction false} ParseKeepsText(s: string, off: nat, tolerant: bool)
    ensures var r := ParseFrom(s, off, tolerant); r.Ok? ==> Source(r.value) == UpperString(s)
    decreases |s|
  {
    hide Pattern;
    hide NextToken;
    if s != "" && NextToken(s, tolerant).Token? {
      var n := NextToken(s, tolerant).len;
      TokenText(s, tolerant);
      ParseKeepsText(s[n..], off + n, tolerant);
      assert UpperString(s) == UpperString(s[..n]) + UpperString(s[n..]);
    }
  }

  lemma TokenIgnoresCase(s: string, tolerant: bool)
    requires s != ""
    ensures NextToken(UpperString(s), tolerant) == NextToken(s, tolerant)
  {
    UpperRunes(s);
    if s[0] == '^' {
      ProsignIgnoresCase(s);
      hide UpperString, RunElements, Pattern, Elements, LetterRun;
    } else {
      LettersAreKeyable();
      hide Pattern, UpperString, RunElements, LetterRun;
    }
  }

  lemma UpperRunes(s: string)
    requires s != ""
    ensures UpperString(s) != "" && UpperString(s)[0] == Upper(s[0]) && Upper(Upper(s[0])) == Upper(s[0])
    ensures UpperString(s)[0] == '^' <==> s[0] == '^'
    ensures UpperString(s)[0] == ' ' <==> s[0] == ' '
    ensures !IsLetter(s[0]) ==> UpperString(s)[0] == s[0]
  {}

  lemma ProsignIgnoresCase(s: string)
    requires s != ""
    ensures var u, n := UpperString(s), LetterRun(s[1..]);
      && LetterRun(u[1..]) == n
      && RunElements(u[1..n + 1]) == RunElements(s[1..n + 1])
      && UpperString(u[1..n + 1]) == UpperString(s[1..n + 1])
  {
    hide RunElements, LetterRun;
    var u, n := UpperString(s), LetterRun(s[1..]);
    LetterRunUpper(s[1..]);
    assert u[1..] == UpperString(s[1..]);
    RunElementsUpper(s[1..n + 1]);
    assert u[1..n + 1] == UpperString(s[1..n + 1]);
    assert UpperString(u[1..n + 1]) == u[1..n + 1];
  }

  /** Case is not significant: canonical text parses to what the client's own text does. */
  lemma {:induction false} ParseIgnoresCase(s: string, off: nat, tolerant: bool)
    ensures ParseFrom(UpperString(s), off, tolerant) == ParseFrom(s, off, tolerant)
    decreases |s|
  {
    hide NextToken;
    if s != "" {
      TokenIgnoresCase(s, tolerant);
      match NextToken(s, tolerant)
      case Token(_, n) =>
        assert UpperString(s)[n..] == UpperString(s[n..]);
        ParseIgnoresCase(s[n..], off + n, tolerant);
      case BadRune => BadRuneNotLetter(s, tolerant);
      case BadCaret =>
    }
  }

  lemma BadRuneNotLetter(s: string, tolerant: bool)
    requires s != "" && NextToken(s, tolerant).BadRune?
    ensures Upper(s[0]) == s[0]
  {
    hide Pattern;
    LettersAreKeyable();
  }

  lemma LetterRunUpper(s: string)
    ensures LetterRun(UpperString(s)) == LetterRun(s)
  {
    if s != "" {
      assert UpperString(s)[1..] == UpperString(s[1..]);
    }
  }

  lemma {:induction false} RunElementsUpper(s: string)
    ensures RunElements(UpperString(s)) == RunElements(s)
  {
    if s != "" {
      assert UpperString(s)[1..] == UpperString(s[1..]);
      RunElementsUpper(s[1..]);
    }
  }

  /** Parsing canonical text again gives the same symbols. */
  lemma ParseRoundTrip(s: string, tolerant: bool)
    requires ParseFrom(s, 0, tolerant).Ok?
    ensures ParseFrom(Source(ParseFrom(s, 0, tolerant).value), 0, tolerant) == ParseFrom(s, 0, tolerant)
  {
    ParseKeepsText(s, 0, tolerant);
    ParseIgnoresCase(s, 0, tolerant);
  }

  /** What the strict grammar asks of position i. */
  predicate WellFormedAt(s: string, i: nat)
    requires i < |s|
  {
    if s[i] == '^' then i + 1 < |s| && IsLetter(s[i + 1]) else s[i] == ' ' || Keyable(s[i])
  }

  lemma TokenAccepts(s: string)
    requires s != ""
    ensures match NextToken(s, false)
      case Token(_, n) => forall i :: 0 <= i < n ==> WellFormedAt(s, i)
      case BadCaret => !WellFormedAt(s, 0) && s[0] == '^'
      case BadRune => !WellFormedAt(s, 0) && s[0] != '^'
  {
    hide Pattern;
    LettersAreKeyable();
    var n := LetterRun(s[1..]);
    assert forall i :: 0 < i <= n ==> s[i] == s[1..][i - 1];
  }

  /** The strict parse succeeds exactly when every position is well formed, and otherwise
      reports the first one that is not. */
  lemma {:induction false} ParseAccepts(s: string, off: nat)
    ensures var r := ParseFrom(s, off, false);
      && (r.Ok? <==> forall i :: 0 <= i < |s| ==> WellFormedAt(s, i))
      && (r.Err? ==>
           && off <= r.error.offset < off + |s|
           && !WellFormedAt(s, r.error.offset - off)
           && (r.error.SyntaxError? <==> s[r.error.offset - off] == '^')
           && (r.error.CharError? ==> r.error.rune == s[r.error.offset - off])
           && forall i :: 0 <= i < r.error.offset - off ==> WellFormedAt(s, i))
    decreases |s|
  {
    hide NextToken, Keyable;
    if s != "" {
      TokenAccepts(s);
      if NextToken(s, false).Token? {
        var n := NextToken(s, false).len;
        ParseAccepts(s[n..], off + n);
        assert forall i :: n <= i < |s| ==> WellFormedAt(s, i) == WellFormedAt(s[n..], i - n);
        assert forall i :: 0 <= i < |s[n..]| ==> WellFormedAt(s[n..], i) == WellFormedAt(s, i + n);
      }
    }
  }

  /** The tolerant parse never fails. */
  lemma {:induction false} TolerantParses(s: string, off: nat)
    ensures ParseFrom(s, off, true).Ok?
    decreases |s|
  {
    hide NextToken;
    if s != "" {
      TolerantNext(s);
      var n := NextToken(s, true).len;
      TolerantParses(s[n..], off + n);
    }
  }

  lemma TolerantNext(s: string)
    requires s != ""
    ensures NextToken(s, true).Token?
  {
    hide Pattern;
  }

  /** Every parsed symbol but a space keys at least one mark. */
  lemma {:induction false} ParsedSymbolsSound(s: string, off: nat, tolerant: bool)
    ensures var r := ParseFrom(s, off, tolerant);
      r.Ok? ==> forall k :: 0 <= k < |r.value| ==>
        (r.value[k].kind == SpaceKind <==> r.value[k].elements == [])
    decreases |s|
  {
    hide NextToken;
    if s != "" && NextToken(s, tolerant).Token? {
      var n := NextToken(s, tolerant).len;
      TokenSound(s, tolerant);
      ParsedSymbolsSound(s[n..], off + n, tolerant);
      var tail := ParseFrom(s[n..], off + n, tolerant);
      if tail.Ok? {
        var syms := ParseFrom(s, off, tolerant).value;
        assert syms == [NextToken(s, tolerant).sym] + tail.value;
        forall k | 0 <= k < |syms| ensures syms[k].kind == SpaceKind <==> syms[k].elements == [] {
          if k > 0 { assert syms[k] == tail.value[k - 1]; }
        }
      }
    }
  }

  lemma TokenSound(s: string, tolerant: bool)
    requires s != "" && NextToken(s, tolerant).Token?
    ensures var sym := NextToken(s, tolerant).sym; sym.kind == SpaceKind <==> sym.elements == []
  {
    hide Pattern;
    LettersAreKeyable();
  }

  // ---- cutting text ----

  /** s ends inside a prosign that a following letter would extend. */
  predicate OpenProsign(s: string) {
    s != "" && (s[|s| - 1] == '^' || (IsLetter(s[|s| - 1]) && OpenProsign(s[..|s| - 1])))
  }

  /** Cutting between a and b cuts no prosign. */
  predicate CleanCut(a: string, b: string) {
    !(OpenProsign(a) && b != "" && IsLetter(b[0]))
  }

  lemma {:induction false} OpenProsignTail(s: string, n: nat)
    requires n < |s|
    ensures OpenProsign(s[n..]) ==> OpenProsign(s)
    decreases |s|
  {
    var t := s[n..];
    assert t[|t| - 1] == s[|s| - 1];
    if |t| > 1 {
      assert t[..|t| - 1] == s[..|s| - 1][n..];
      OpenProsignTail(s[..|s| - 1], n);
    } else {
      assert t[..|t| - 1] == "" && !OpenProsign("");
    }
  }

  /** Past a complete token, whether a prosign is open depends on the rest alone. */
  lemma {:induction false} OpenProsignPastToken(s: string)
    requires s != "" && NextToken(s, true).len < |s|
    ensures OpenProsign(s) ==> OpenProsign(s[NextToken(s, true).len..])
    decreases |s|
  {
    hide Pattern;
    var n := NextToken(s, true).len;
    var t := s[n..];
    assert t[|t| - 1] == s[|s| - 1];
    if |t| > 1 {
      TokenPrefix(s, |s| - 1);
      assert t[..|t| - 1] == s[..|s| - 1][n..];
      OpenProsignPastToken(s[..|s| - 1]);
    } else if OpenProsign(s) && s[|s| - 1] != '^' {
      assert s[..|s| - 1] == s[..n];
      TokenCloses(s);
    }
  }

  /** Where a token stops short of a letter, no prosign is open. */
  lemma TokenCloses(s: string)
    requires s != "" && NextToken(s, true).len < |s| && IsLetter(s[NextToken(s, true).len])
    ensures !OpenProsign(s[..NextToken(s, true).len])
  {
    hide Pattern;
    var n := NextToken(s, true).len;
    assert s[1..][n - 1] == s[n];
    assert s[0] != '^';
    assert s[..n][..0] == "" && !OpenProsign("");
  }

  /** A one-token text with an open prosign is a caret and letters. */
  lemma {:induction false} OpenIsLetters(s: string)
    requires OpenProsign(s)
    ensures exists i :: 0 <= i < |s| && s[i] == '^' && forall k :: i < k < |s| ==> IsLetter(s[k])
  {
    if s[|s| - 1] != '^' {
      OpenIsLetters(s[..|s| - 1]);
    }
  }

  /** A token that ends strictly inside a prefix is the same token there. */
  lemma TokenPrefix(s: string, m: nat)
    requires m <= |s| && s != ""
    requires NextToken(s, true).len < m
    ensures NextToken(s[..m], true) == NextToken(s, true)
  {
    hide Pattern;
    var p := s[..m];
    if s[0] == '^' {
      LetterRunPrefix(s[1..], m - 1);
      assert p[1..] == s[1..][..m - 1];
      var n := LetterRun(s[1..]);
      assert n < m - 1 ==> p[1..n + 1] == s[1..n + 1] by { SlicePrefix(s, m, n); }
    }
  }

  lemma SlicePrefix(s: string, m: nat, n: nat)
    requires n < m - 1 && m <= |s|
    ensures s[..m][1..n + 1] == s[1..n + 1]
  {}

  lemma {:induction false} LetterRunPrefix(s: string, m: nat)
    requires m <= |s|
    ensures LetterRun(s) < m ==> LetterRun(s[..m]) == LetterRun(s)
  {
    if s != "" && m > 0 && IsLetter(s[0]) {
      LetterRunPrefix(s[1..], m - 1);
      assert s[..m][1..] == s[1..][..m - 1];
    }
  }

  /** What parsing two texts one after the other gives. */
  function Combine(a: ParseResult, b: ParseResult): ParseResult {
    if a.Ok? then Prepend(a.value, b) else a
  }

  lemma CombinePrepend(head: seq<Symbol>, a: ParseResult, b: ParseResult)
    ensures Combine(Prepend(head, a), b) == Prepend(head, Combine(a, b))
    ensures Combine(Ok([]), b) == b
  {
    assert a.Ok? && b.Ok? ==> head + (a.value + b.value) == head + a.value + b.value;
    assert b.Ok? ==> [] + b.value == b.value;
  }

  /** A cut that splits no prosign parses piecewise, error offsets included. */
  lemma {:induction false} ParseConcat(a: string, b: string, off: nat, tolerant: bool)
    requires CleanCut(a, b)
    ensures ParseFrom(a + b, off, tolerant)
         == Combine(ParseFrom(a, off, tolerant), ParseFrom(b, off + |a|, tolerant))
    decreases |a|
  {
    hide NextToken, Combine, Prepend, CleanCut;
    var rb := ParseFrom(b, off + |a|, tolerant);
    if a == "" {
      assert a + b == b;
      CombinePrepend([], rb, rb);
    } else {
      TokenConcat(a, b, tolerant);
      match NextToken(a, tolerant)
      case Token(sym, n) =>
        var tail := a[n..];
        assert (a + b)[n..] == tail + b;
        CleanCutTail(a, b, n);
        ParseConcat(tail, b, off + n, tolerant);
        CombinePrepend([sym], ParseFrom(tail, off + n, tolerant), rb);
      case BadRune => CombineError(ParseFrom(a, off, tolerant), rb);
      case BadCaret => CombineError(ParseFrom(a, off, tolerant), rb);
    }
  }

  lemma CombineError(a: ParseResult, b: ParseResult)
    ensures a.Err? ==> Combine(a, b) == a
  {}

  lemma CleanCutTail(a: string, b: string, n: nat)
    requires n <= |a| && CleanCut(a, b)
    ensures CleanCut(a[n..], b)
  {
    if n < |a| { OpenProsignTail(a, n); }
  }

  lemma TokenConcat(a: string, b: string, tolerant: bool)
    requires a != "" && CleanCut(a, b)
    ensures NextToken(a + b, tolerant) == NextToken(a, tolerant)
  {
    hide Pattern;
    if a[0] == '^' {
      var n := LetterRun(a[1..]);
      if n + 1 == |a| { LettersOpen(a); }
      LetterRunConcat(a[1..], b);
      assert (a + b)[1..] == a[1..] + b;
      assert (a + b)[1..n + 1] == a[1..n + 1];
    }
  }

  lemma {:induction false} LettersOpen(s: string)
    requires s != "" && s[0] == '^' && forall k :: 1 <= k < |s| ==> IsLetter(s[k])
    ensures OpenProsign(s)
  {
    if |s| > 1 { LettersOpen(s[..|s| - 1]); }
  }

  lemma {:induction false} LetterRunConcat(a: string, b: string)
    ensures LetterRun(a + b) == if LetterRun(a) < |a| then LetterRun(a) else |a| + LetterRun(b)
  {
    if a == "" {
      assert a + b == b;
    } else {
      assert (a + b)[1..] == a[1..] + b;
      LetterRunConcat(a[1..], b);
    }
  }

  /** A cut through a prosign never parses piecewise: the letters that continue the prosign
      are symbols of their own in the second piece and part of one in the whole. */
  lemma {:induction false} DirtyCutMerges(a: string, b: string, off: nat, tolerant: bool)
    requires !CleanCut(a, b)
    requires ParseFrom(a, off, tolerant).Ok? && ParseFrom(b, off + |a|, tolerant).Ok?
    ensures ParseFrom(a + b, off, tolerant).Ok?
    ensures |ParseFrom(a + b, off, tolerant).value| + LetterRun(b)
         == |ParseFrom(a, off, tolerant).value| + |ParseFrom(b, off + |a|, tolerant).value|
    ensures LetterRun(b) > 0
    decreases |a|
  {
    hide NextToken, CleanCut, OpenProsign, ParseFrom;
    DirtyCutParts(a, b);
    ParseCount(a, off, tolerant);
    ParseCount(a + b, off, tolerant);
    TolerantToken(a, tolerant);
    var n, m := NextToken(a, tolerant).len, LetterRun(b);
    if n < |a| {
      OpenProsignPastToken(a);
      DirtyToken(a, b, tolerant);
      assert (a + b)[n..] == a[n..] + b;
      DirtyCutParts(a[n..], b);
      DirtyCutMerges(a[n..], b, off + n, tolerant);
    } else {
      DirtyLastToken(a, b, tolerant);
      ParseLetters(b, off + |a|, tolerant);
      assert (a + b)[|a| + m..] == b[m..];
      assert a[n..] == "";
      ParseCount("", off + n, tolerant);
    }
  }

  lemma ParseCount(s: string, off: nat, tolerant: bool)
    ensures s == "" ==> ParseFrom(s, off, tolerant) == Ok([])
    ensures s != "" && ParseFrom(s, off, tolerant).Ok? ==> NextToken(s, tolerant).Token?
    ensures s != "" && NextToken(s, tolerant).Token? ==>
      var n := NextToken(s, tolerant).len;
      var r, tail := ParseFrom(s, off, tolerant), ParseFrom(s[n..], off + n, tolerant);
      && (r.Ok? <==> tail.Ok?)
      && (r.Ok? ==> |r.value| == 1 + |tail.value|)
  {
    hide NextToken;
  }

  lemma DirtyCutParts(a: string, b: string)
    ensures !CleanCut(a, b) <==> OpenProsign(a) && LetterRun(b) > 0
    ensures OpenProsign(a) ==> a != ""
  {}

  lemma TolerantToken(s: string, tolerant: bool)
    requires s != "" && NextToken(s, tolerant).Token?
    ensures NextToken(s, true) == NextToken(s, tolerant)
  {
    hide Pattern;
  }

  lemma DirtyToken(a: string, b: string, tolerant: bool)
    requires a != "" && NextToken(a, tolerant).Token? && NextToken(a, tolerant).len < |a|
    ensures NextToken(a + b, tolerant) == NextToken(a, tolerant)
  {
    hide Pattern;
    var n := NextToken(a, tolerant).len;
    LetterRunConcat(a[1..], b);
    assert (a + b)[1..] == a[1..] + b;
    assert (a + b)[1..n] == a[1..n];
  }

  lemma DirtyLastToken(a: string, b: string, tolerant: bool)
    requires !CleanCut(a, b) && NextToken(a, tolerant).Token? && NextToken(a, tolerant).len == |a|
    ensures NextToken(a + b, tolerant).Token?
    ensures NextToken(a + b, tolerant).len == |a| + LetterRun(b)
  {
    hide *;
    OpenTokenIsCaret(a, b, tolerant);
    LetterRunConcat(a[1..], b);
    assert (a + b)[1..] == a[1..] + b && (a + b)[0] == '^';
    CaretToken(a + b, tolerant);
  }

  lemma CaretToken(s: string, tolerant: bool)
    requires s != "" && s[0] == '^' && LetterRun(s[1..]) > 0
    ensures NextToken(s, tolerant).Token? && NextToken(s, tolerant).len == LetterRun(s[1..]) + 1
  {
    hide RunElements, UpperString, LetterRun;
  }

  lemma OpenTokenIsCaret(a: string, b: string, tolerant: bool)
    requires !CleanCut(a, b) && NextToken(a, tolerant).Token? && NextToken(a, tolerant).len == |a|
    ensures a[0] == '^' && LetterRun(a[1..]) + 1 == |a| && LetterRun(b) > 0
  {
    hide Pattern, Elements, RunElements;
    if |a| == 1 { OpenSingle(a); }
  }

  lemma OpenSingle(a: string)
    requires |a| == 1
    ensures OpenProsign(a) <==> a[0] == '^'
  {
    assert a[..0] == "" && !OpenProsign("");
  }

  lemma LetterToken(s: string, tolerant: bool)
    requires s != "" && IsLetter(s[0])
    ensures NextToken(s, tolerant) == Token(Symbol(CharKind, [Upper(s[0])], Elements(s[0])), 1)
  {
    hide Pattern;
    LettersAreKeyable();
  }

  // r, if it parsed, has n symbols more than tail.
  predicate Longer(r: ParseResult, tail: ParseResult, n: nat) {
    r.Ok? ==> tail.Ok? && |r.value| == n + |tail.value|
  }

  lemma {:induction false} ParseLetters(s: string, off: nat, tolerant: bool)
    ensures Longer(ParseFrom(s, off, tolerant), ParseFrom(s[LetterRun(s)..], off + LetterRun(s), tolerant), LetterRun(s))
    decreases |s|
  {
    hide NextToken, ParseFrom, Pattern, Keyable, Elements;
    if s != "" && IsLetter(s[0]) {
      LetterToken(s, tolerant);
      ParseCount(s, off, tolerant);
      ParseLetters(s[1..], off + 1, tolerant);
      assert LetterRun(s) == 1 + LetterRun(s[1..]);
      assert s[1..][LetterRun(s[1..])..] == s[LetterRun(s)..];
    } else {
      assert s[0..] == s;
    }
  }

  // ---- what a prosign keys ----

  /** The elements of a text, in order. */
  function AllElements(syms: seq<Symbol>): seq<Element> {
    if syms == [] then [] else AllElements(syms[..|syms| - 1]) + syms[|syms| - 1].elements
  }

  lemma AllElementsFront(syms: seq<Symbol>)
    requires syms != []
    ensures AllElements(syms) == syms[0].elements + AllElements(syms[1..])
  {
    AllElementsConcat([syms[0]], syms[1..]);
    assert [syms[0]] + syms[1..] == syms && [syms[0]][..0] == [];
  }

  lemma {:induction false} AllElementsConcat(a: seq<Symbol>, b: seq<Symbol>)
    ensures AllElements(a + b) == AllElements(a) + AllElements(b)
  {
    if b == [] {
      assert a + b == a;
    } else {
      assert (a + b)[..|a + b| - 1] == a + b[..|b| - 1];
      AllElementsConcat(a, b[..|b| - 1]);
    }
  }

  /** A prosign keys what its letters key as plain text, in order, as one symbol, and says so. */
  lemma ProsignKeysItsLetters(name: string, off: nat, tolerant: bool)
    requires name != "" && forall k :: 0 <= k < |name| ==> IsLetter(name[k])
    ensures var plain := ParseFrom(name, off, tolerant);
      && plain.Ok? && |plain.value| == |name|
      && (forall k :: 0 <= k < |name| ==> plain.value[k] == Symbol(CharKind, [Upper(name[k])], Elements(name[k])))
      && ParseFrom("^" + name, off, tolerant) == Ok([Symbol(ProsignKind, "^" + UpperString(name), AllElements(plain.value))])
  {
    LettersParse(name, off, tolerant);
    AllLetters(name);
    var s := "^" + name;
    assert s[1..] == name && name[..|name|] == name && s[1..|name| + 1] == name && s[|name| + 1..] == "";
    hide RunElements, Pattern, AllElements, Elements;
    var p := Symbol(ProsignKind, "^" + UpperString(name), RunElements(name));
    assert NextToken(s, tolerant) == Token(p, |name| + 1);
    assert [p] + [] == [p];
  }

  lemma {:induction false} AllLetters(name: string)
    requires forall k :: 0 <= k < |name| ==> IsLetter(name[k])
    ensures LetterRun(name) == |name|
  {
    if name != "" { AllLetters(name[1..]); }
  }

  lemma {:induction false} LettersParse(name: string, off: nat, tolerant: bool)
    requires forall k :: 0 <= k < |name| ==> IsLetter(name[k])
    ensures var plain := ParseFrom(name, off, tolerant);
      && plain.Ok? && |plain.value| == |name| && AllElements(plain.value) == RunElements(name)
      && forall k :: 0 <= k < |name| ==> plain.value[k] == Symbol(CharKind, [Upper(name[k])], Elements(name[k]))
    decreases |name|
  {
    hide Pattern;
    if name != "" {
      LettersAreKeyable();
      LettersParse(name[1..], off + 1, tolerant);
      var sym := Symbol(CharKind, [Upper(name[0])], Elements(name[0]));
      assert NextToken(name, tolerant) == Token(sym, 1);
      hide Elements, NextToken;
      var rest := ParseFrom(name[1..], off + 1, tolerant).value;
      AllElementsFront([sym] + rest);
      assert ([sym] + rest)[1..] == rest;
    }
  }
}

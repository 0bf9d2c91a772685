/** The chart read backwards: what a listener makes of what is keyed (internal/morse/morse.go). */
module MorseTable {
  import opened Basics
  import opened Morse

  /** Where a run of elements leads in the tree of dots and dashes: left at a dot, right at a dash. */
  function Place(els: seq<Element>, at: nat): nat {
    if els == [] then at else Place(els[1..], 2 * at + (if els[0] == Dash then 1 else 0))
  }

  /** The character a listener hears there. */
  function Heard(place: nat): Option<char> {
    match place
    case 2 => Some('E') case 3 => Some('T') case 4 => Some('I') case 5 => Some('A') case 6 => Some('N') case 7 => Some('M')
    case 8 => Some('S') case 9 => Some('U') case 10 => Some('R') case 11 => Some('W') case 12 => Some('D') case 13 => Some('K')
    case 14 => Some('G') case 15 => Some('O') case 16 => Some('H') case 17 => Some('V') case 18 => Some('F') case 20 => Some('L')
    case 22 => Some('P') case 23 => Some('J') case 24 => Some('B') case 25 => Some('X') case 26 => Some('C') case 27 => Some('Y')
    case 28 => Some('Z') case 29 => Some('Q') case 32 => Some('5') case 33 => Some('4') case 35 => Some('3') case 39 => Some('2')
    case 42 => Some('+') case 47 => Some('1') case 48 => Some('6') case 49 => Some('=') case 50 => Some('/') case 54 => Some('(')
    case 56 => Some('7') case 60 => Some('8') case 62 => Some('9') case 63 => Some('0') case 76 => Some('?') case 82 => Some('"')
    case 85 => Some('.') case 90 => Some('@') case 94 => Some('\'') case 97 => Some('-') case 109 => Some(')') case 115 => Some(',')
    case 120 => Some(':')
    case _ => None
  }

  function Bit(p: string, k: nat): nat
    requires k < |p|
  {
    if p[k] == '-' then 1 else 0
  }

  // The place of a chart entry, worked out.
  function PlaceOf(p: string): nat
    requires 1 <= |p| <= 6
  {
    var a := 2 + Bit(p, 0);
    if |p| == 1 then a else
      var b := 2 * a + Bit(p, 1);
      if |p| == 2 then b else
        var c := 2 * b + Bit(p, 2);
        if |p| == 3 then c else
          var d := 2 * c + Bit(p, 3);
          if |p| == 4 then d else
            var e := 2 * d + Bit(p, 4);
            if |p| == 5 then e else 2 * e + Bit(p, 5)
  }

  lemma PlaceStep(p: string, k: nat, at: nat)
    requires k <= |p|
    ensures Place(Decode(p)[k..], at) == if k == |p| then at else Place(Decode(p)[k + 1..], 2 * at + Bit(p, k))
  {
    if k < |p| { assert Decode(p)[k..][1..] == Decode(p)[k + 1..]; }
  }

  lemma PlaceIs(p: string)
    requires 1 <= |p| <= 6
    ensures Place(Decode(p), 1) == PlaceOf(p)
  {
    var d := Decode(p);
    assert d[0..] == d;
    hide Place, Decode, Bit;
    PlaceStep(p, 0, 1);
    var a := 2 + Bit(p, 0);
    PlaceStep(p, 1, a);
    if |p| > 1 {
      var b := 2 * a + Bit(p, 1);
      PlaceStep(p, 2, b);
      if |p| > 2 {
        var c := 2 * b + Bit(p, 2);
        PlaceStep(p, 3, c);
        if |p| > 3 {
          var e := 2 * c + Bit(p, 3);
          PlaceStep(p, 4, e);
          if |p| > 4 {
            PlaceStep(p, 5, 2 * e + Bit(p, 4));
            if |p| > 5 { PlaceStep(p, 6, 2 * (2 * e + Bit(p, 4)) + Bit(p, 5)); }
          }
        }
      }
    }
  }

  // What is keyed for r is heard as c.
  predicate HeardAs(r: char, c: char) {
    1 <= |Pattern(r)| <= 6 && Heard(Place(Decode(Pattern(r)), 1)) == Some(c)
  }

  lemma Hears(r: char, p: string, n: nat, c: char)
    requires Pattern(r) == p && 1 <= |p| <= 6 && PlaceOf(p) == n && Heard(n) == Some(c)
    ensures HeardAs(r, c)
  {
    hide *;
    PlaceIs(p);
    HeardIs(r, c);
  }

  lemma HeardIs(r: char, c: char)
    requires 1 <= |Pattern(r)| <= 6 && Heard(Place(Decode(Pattern(r)), 1)) == Some(c)
    ensures HeardAs(r, c)
  {
    hide Pattern, Heard, Place, Decode;
  }

  lemma Heard0()
    ensures HeardAs('A', 'A') && HeardAs('B', 'B') && HeardAs('C', 'C') && HeardAs('D', 'D') && HeardAs('E', 'E')
  {
    hide Place, Decode, HeardAs;
    Hears('A', ".-", 5, 'A');
    Hears('B', "-...", 24, 'B');
    Hears('C', "-.-.", 26, 'C');
    Hears('D', "-..", 12, 'D');
    Hears('E', ".", 2, 'E');
  }

  lemma Heard1()
    ensures HeardAs('F', 'F') && HeardAs('G', 'G') && HeardAs('H', 'H') && HeardAs('I', 'I') && HeardAs('J', 'J')
  {
    hide Place, Decode, HeardAs;
    Hears('F', "..-.", 18, 'F');
    Hears('G', "--.", 14, 'G');
    Hears('H', "....", 16, 'H');
    Hears('I', "..", 4, 'I');
    Hears('J', ".---", 23, 'J');
  }

  lemma Heard2()
    ensures HeardAs('K', 'K') && HeardAs('L', 'L') && HeardAs('M', 'M') && HeardAs('N', 'N') && HeardAs('O', 'O')
  {
    hide Place, Decode, HeardAs;
    Hears('K', "-.-", 13, 'K');
    Hears('L', ".-..", 20, 'L');
    Hears('M', "--", 7, 'M');
    Hears('N', "-.", 6, 'N');
    Hears('O', "---", 15, 'O');
  }

  lemma Heard3()
    ensures HeardAs('P', 'P') && HeardAs('Q', 'Q') && HeardAs('R', 'R') && HeardAs('S', 'S') && HeardAs('T', 'T')
  {
    hide Place, Decode, HeardAs;
    Hears('P', ".--.", 22, 'P');
    Hears('Q', "--.-", 29, 'Q');
    Hears('R', ".-.", 10, 'R');
    Hears('S', "...", 8, 'S');
    Hears('T', "-", 3, 'T');
  }

  lemma Heard4()
    ensures HeardAs('U', 'U') && HeardAs('V', 'V')
  {
    hide Place, Decode, HeardAs;
    Hears('U', "..-", 9, 'U');
    Hears('V', "...-", 17, 'V');
  }

  lemma Heard5()
    ensures HeardAs('W', 'W') && HeardAs('X', 'X')
  {
    hide Place, Decode, HeardAs;
    Hears('W', ".--", 11, 'W');
    Hears('X', "-..-", 25, 'X');
  }

  lemma Heard6()
    ensures HeardAs('Y', 'Y') && HeardAs('Z', 'Z')
  {
    hide Place, Decode, HeardAs;
    Hears('Y', "-.--", 27, 'Y');
    Hears('Z', "--..", 28, 'Z');
  }

  lemma Heard7()
    ensures HeardAs('0', '0') && HeardAs('1', '1')
  {
    hide Place, Decode, HeardAs;
    Hears('0', "-----", 63, '0');
    Hears('1', ".----", 47, '1');
  }

  lemma Heard8()
    ensures HeardAs('2', '2') && HeardAs('3', '3')
  {
    hide Place, Decode, HeardAs;
    Hears('2', "..---", 39, '2');
    Hears('3', "...--", 35, '3');
  }

  lemma Heard9()
    ensures HeardAs('4', '4') && HeardAs('5', '5')
  {
    hide Place, Decode, HeardAs;
    Hears('4', "....-", 33, '4');
    Hears('5', ".....", 32, '5');
  }

  lemma Heard10()
    ensures HeardAs('6', '6') && HeardAs('7', '7')
  {
    hide Place, Decode, HeardAs;
    Hears('6', "-....", 48, '6');
    Hears('7', "--...", 56, '7');
  }

  lemma Heard11()
    ensures HeardAs('8', '8') && HeardAs('9', '9')
  {
    hide Place, Decode, HeardAs;
    Hears('8', "---..", 60, '8');
    Hears('9', "----.", 62, '9');
  }

  lemma Heard12()
    ensures HeardAs('\'', '\'') && HeardAs('"', '"')
  {
    hide Place, Decode, HeardAs;
    Hears('\'', ".----.", 94, '\'');
    Hears('"', ".-..-.", 82, '"');
  }

  lemma Heard13()
    ensures HeardAs('(', '(') && HeardAs(')', ')')
  {
    hide Place, Decode, HeardAs;
    Hears('(', "-.--.", 54, '(');
    Hears(')', "-.--.-", 109, ')');
  }

  lemma Heard14()
    ensures HeardAs('*', 'X') && HeardAs('+', '+')
  {
    hide Place, Decode, HeardAs;
    Hears('*', "-..-", 25, 'X');
    Hears('+', ".-.-.", 42, '+');
  }

  lemma Heard15()
    ensures HeardAs(',', ',') && HeardAs('-', '-')
  {
    hide Place, Decode, HeardAs;
    Hears(',', "--..--", 115, ',');
    Hears('-', "-....-", 97, '-');
  }

  lemma Heard16()
    ensures HeardAs('.', '.') && HeardAs('/', '/')
  {
    hide Place, Decode, HeardAs;
    Hears('.', ".-.-.-", 85, '.');
    Hears('/', "-..-.", 50, '/');
  }

  lemma Heard17()
    ensures HeardAs(':', ':') && HeardAs('=', '=')
  {
    hide Place, Decode, HeardAs;
    Hears(':', "---...", 120, ':');
    Hears('=', "-...-", 49, '=');
  }

  lemma Heard18()
    ensures HeardAs('?', '?') && HeardAs('@', '@')
  {
    hide Place, Decode, HeardAs;
    Hears('?', "..--..", 76, '?');
    Hears('@', ".--.-.", 90, '@');
  }

  /** A listener hears every character that can be keyed, one for each run of elements; but the
      multiplication sign is heard as X. */
  lemma HeardRight(r: char)
    requires Keyable(r)
    ensures Heard(Place(Elements(r), 1)) == Some(if r == '*' then 'X' else Upper(r))
  {
    if IsLetter(r) { LetterHeard(r); } else { OtherHeard(r); }
    hide *;
  }

  lemma LetterHeard(r: char)
    requires IsLetter(r)
    ensures Heard(Place(Elements(r), 1)) == Some(Upper(r))
  {
    hide Heard, Place, Decode, PlaceOf, Pattern;
    Heard0(); Heard1(); Heard2(); Heard3(); Heard4(); Heard5(); Heard6();
  }

  lemma OtherHeard(r: char)
    requires Keyable(r) && !IsLetter(r)
    ensures Heard(Place(Elements(r), 1)) == Some(if r == '*' then 'X' else r)
  {
    hide Heard, Place, Decode, PlaceOf;
    Heard7(); Heard8(); Heard9(); Heard10(); Heard11(); Heard12(); Heard13(); Heard14(); Heard15(); Heard16(); Heard17(); Heard18();
  }

  /** So no two characters sound alike, but X and the multiplication sign. */
  lemma NoneSoundAlike(r: char, q: char)
    requires Keyable(r) && Keyable(q)
    ensures Elements(r) == Elements(q) <==> Upper(r) == Upper(q) || (Upper(r) in "X*" && Upper(q) in "X*")
  {
    HeardRight(r);
    HeardRight(q);
    TimesIsX();
    hide Heard, Place, Decode, Pattern;
  }

  lemma TimesIsX()
    ensures Pattern('*') == Pattern('X') && Upper('*') == '*' && Upper('X') == 'X'
  {}

  // ---- punctuation ----

  /** A character keys what some letters key when they run together. */
  predicate KeysAs(r: char, letters: string) { Elements(r) == RunElements(letters) }

  lemma {:induction false} RunOf(a: char, rest: string)
    ensures RunElements([a] + rest) == Elements(a) + RunElements(rest)
  {
    assert ([a] + rest)[1..] == rest;
    hide Elements;
  }

  lemma RunTwo(r: char, a: char, b: char)
    requires Elements(r) == Elements(a) + Elements(b)
    ensures KeysAs(r, [a, b])
  {
    RunOf(a, [b]);
    RunOf(b, []);
    assert [a] + [b] == [a, b] && [b] + [] == [b] && RunElements([]) == [];
    hide Elements, RunElements;
  }

  lemma RunThree(r: char, a: char, b: char, c: char)
    requires Elements(r) == Elements(a) + Elements(b) + Elements(c)
    ensures KeysAs(r, [a, b, c])
  {
    NoRun();
    hide *;
    RunOf(a, [b, c]);
    RunOf(b, [c]);
    RunOf(c, []);
    assert [a] + [b, c] == [a, b, c] && [b] + [c] == [b, c] && [c] + [] == [c];
    KeysAsIs(r, [a, b, c]);
  }

  lemma NoRun()
    ensures RunElements([]) == []
  {}

  lemma KeysAsIs(r: char, letters: string)
    ensures KeysAs(r, letters) <==> Elements(r) == RunElements(letters)
  {
    hide Elements, RunElements;
  }

  lemma TwoLetterMarks()
    ensures KeysAs('\'', "WG") && KeysAs('"', "AF") && KeysAs('(', "KN") && KeysAs(')', "KK") && KeysAs('+', "AR")
  {
    hide RunElements, KeysAs;
    RunTwo('\'', 'W', 'G');
    RunTwo('"', 'A', 'F');
    RunTwo('(', 'K', 'N');
    RunTwo(')', 'K', 'K');
    RunTwo('+', 'A', 'R');
  }

  lemma MoreTwoLetterMarks()
    ensures KeysAs('-', "DU") && KeysAs('/', "DN") && KeysAs(':', "OS") && KeysAs('=', "BT") && KeysAs('@', "AC")
  {
    hide RunElements, KeysAs;
    RunTwo('-', 'D', 'U');
    RunTwo('/', 'D', 'N');
    RunTwo(':', 'O', 'S');
    RunTwo('=', 'B', 'T');
    RunTwo('@', 'A', 'C');
  }

  lemma ThreeLetterMarks()
    ensures KeysAs(',', "MIM") && KeysAs('.', "AAA") && KeysAs('?', "IMI") && KeysAs('*', "X")
  {
    RunOf('X', []);
    assert ['X'] + [] == ['X'];
    TimesIsX();
    hide RunElements;
    assert RunElements([]) == [] by { assert RunElements("") == []; }
    RunThree(',', 'M', 'I', 'M');
    RunThree('.', 'A', 'A', 'A');
    RunThree('?', 'I', 'M', 'I');
  }

  /** Every punctuation mark is the run of letters it goes by. */
  lemma Punctuation()
    ensures KeysAs('\'', "WG") && KeysAs('"', "AF") && KeysAs('(', "KN") && KeysAs(')', "KK") && KeysAs('*', "X")
    ensures KeysAs('+', "AR") && KeysAs(',', "MIM") && KeysAs('-', "DU") && KeysAs('.', "AAA") && KeysAs('/', "DN")
    ensures KeysAs(':', "OS") && KeysAs('=', "BT") && KeysAs('?', "IMI") && KeysAs('@', "AC")
  {
    hide *;
    TwoLetterMarks();
    MoreTwoLetterMarks();
    ThreeLetterMarks();
  }

  const LETTERS := "ABCDEFGHIJKLMNOPQRSTUVWXYZ"
  const DIGITS := "0123456789"
  const MARKS := "'\"()*+,-./:=?@"

  predicate IsMark(r: char) {
    || r == '\'' || r == '"' || r == '(' || r == ')' || r == '*' || r == '+' || r == ','
    || r == '-' || r == '.' || r == '/' || r == ':' || r == '=' || r == '?' || r == '@'
  }

  lemma LettersAre(r: char)
    ensures r in LETTERS <==> 'A' <= r <= 'Z'
  {
    if 'A' <= r <= 'Z' { assert LETTERS[(r - 'A') as int] == r; }
  }

  lemma DigitsAre(r: char)
    ensures r in DIGITS <==> '0' <= r <= '9'
  {
    if '0' <= r <= '9' { assert DIGITS[(r - '0') as int] == r; }
  }

  lemma MarksAre(r: char)
    ensures r in MARKS <==> IsMark(r)
  {}

  lemma ChartIs(r: char)
    ensures Pattern(r) != "" <==> 'A' <= r <= 'Z' || '0' <= r <= '9' || IsMark(r)
  {}

  /** What is advertised is what can be keyed, and the space. */
  lemma CharsetIsKeyable(r: char)
    ensures Upper(r) in LETTERS + DIGITS + " " + MARKS <==> Keyable(r) || r == ' '
  {
    var u := Upper(r);
    LettersAre(u);
    DigitsAre(u);
    MarksAre(u);
    ChartIs(u);
    hide LETTERS, DIGITS, MARKS, Pattern, IsMark;
  }
}

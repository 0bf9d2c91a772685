/** Where text is broken into chunks (internal/cw/chunk.go), said of positions in the text and of
    what the rig's encoding makes of them. */
module ChunkBreaks {
  import opened Basics
  import opened Morse
  import opened Chunks

  // ---- words and units, as positions ----

  /** A word, with the spaces in front of it, begins at k or has ended before it. */
  predicate WordStart(text: string, k: nat) {
    k == 0 || k == |text| || (k < |text| && text[k] == ' ' && text[k - 1] != ' ')
  }

  /** From lo to hi stand one word and the spaces before it, or the spaces the text ends in. */
  predicate WordAt(text: string, lo: nat, hi: nat) {
    && lo < hi <= |text| && WordStart(text, lo) && WordStart(text, hi)
    && forall k :: lo < k < hi ==> !WordStart(text, k)
  }

  /** Within a word, a character stands at k that is not part of what is before it: not the first
      after the leading spaces, and not a letter of a prosign. */
  predicate UnitStart(text: string, lo: nat, hi: nat, k: nat) {
    && lo <= k <= hi <= |text|
    && (k == lo || k == hi || (text[k - 1] != ' ' && CleanCut(text[..k], text[k..])))
  }

  /** From i to j stands one unit of that word: a character or a whole prosign, the first one with
      the spaces before it. */
  predicate UnitAt(text: string, lo: nat, hi: nat, i: nat, j: nat) {
    && i < j && UnitStart(text, lo, hi, i) && UnitStart(text, lo, hi, j)
    && forall k :: i < k < j ==> !UnitStart(text, lo, hi, k)
  }

  predicate Encodes(s: string, max: int, encode: Encoder) { encode(s).Some? && |encode(s).value| <= max }

  /** The word is written, and is longer than the buffer. */
  predicate TooWide(s: string, max: int, encode: Encoder) { encode(s).Some? && |encode(s).value| > max }

  /** What may not be broken: a word that fits, and each unit of a word that does not. */
  ghost predicate PieceAt(text: string, max: int, encode: Encoder, i: nat, j: nat) {
    && i < j <= |text| && Encodes(text[i..j], max, encode)
    && (WordAt(text, i, j)
        || exists lo: nat, hi: nat :: WordAt(text, lo, hi) && TooWide(text[lo..hi], max, encode) && UnitAt(text, lo, hi, i, j))
  }

  /** Every word can be written, and so can, within the buffer, each unit of a word too wide. */
  ghost predicate Sendable(text: string, max: int, encode: Encoder) {
    forall lo: nat, hi: nat :: WordAt(text, lo, hi) ==>
      && encode(text[lo..hi]).Some?
      && (TooWide(text[lo..hi], max, encode) ==> forall i: nat, j: nat :: UnitAt(text, lo, hi, i, j) ==> Encodes(text[i..j], max, encode))
  }

  // ---- the units of a word ----

  /** units are those of the word from lo to hi, one after the other from i on. */
  ghost predicate UnitsCover(text: string, lo: nat, hi: nat, i: nat, units: seq<string>)
    decreases |units|
  {
    if units == [] then i == hi
    else
      var j := i + |units[0]|;
      && j <= |text| && units[0] == text[i..j] && UnitAt(text, lo, hi, i, j) && UnitsCover(text, lo, hi, j, units[1..])
  }

  lemma {:induction false} CoverHas(text: string, lo: nat, hi: nat, i: nat, units: seq<string>, a: nat, b: nat)
    requires UnitsCover(text, lo, hi, i, units) && UnitAt(text, lo, hi, a, b) && i <= a
    ensures text[a..b] in units
    decreases |units|
  {
    hide CleanCut;
    if units != [] {
      var j := i + |units[0]|;
      if a < j {
        assert a == i && b == j;
      } else {
        CoverHas(text, lo, hi, j, units[1..], a, b);
      }
    }
  }

  // A cut at the start of a word is clean, and so is one past a unit.
  lemma WordIsClean(text: string, lo: nat)
    requires lo < |text| && WordStart(text, lo)
    ensures CleanCut(text[..lo], text[lo..])
  {}

  lemma UnitIsClean(text: string, i: nat, j: nat, hi: nat)
    requires i <= j < hi <= |text| && CleanCut(text[..i], text[i..])
    requires forall k :: i <= k < j ==> text[k] == ' '
    ensures var n := UnitLen(text[j..hi]); CleanCut(text[..j + n], text[j + n..]) || j + n == hi
  {
    var rest := text[j..hi];
    var n := UnitLen(rest);
    UnitClosed(text[i..j], rest);
    assert rest[..n] == text[j..j + n] && text[i..j] + text[j..j + n] == text[i..j + n];
    assert text[..i] + text[i..j + n] == text[..j + n];
    if j + n < hi && !CleanCut(text[..j + n], text[j + n..]) {
      assert rest[n..][0] == text[j + n];
      assert text[i..j + n][0] == text[i..][0];
      OpenAfterJoin(text[..i], text[i..j + n]);
    }
  }

  /** Nothing starts inside a unit. */
  lemma InsideUnit(text: string, lo: nat, hi: nat, i: nat, j: nat, k: nat)
    requires lo <= i <= j < hi <= |text| && forall m :: i <= m < j ==> text[m] == ' '
    requires i < k < j + UnitLen(text[j..hi])
    ensures !UnitStart(text, lo, hi, k)
  {
    if k > j {
      var rest := text[j..hi];
      assert rest[1..][k - j - 1] == text[k];
      var s := text[..k];
      assert forall m :: j < m < k ==> rest[1..][m - j - 1] == text[m];
      CaretLetters(s, j);
    }
  }

  lemma {:induction false} CaretLetters(s: string, j: nat)
    requires j < |s| && s[j] == '^' && forall m :: j < m < |s| ==> IsLetter(s[m])
    ensures OpenProsign(s)
    decreases |s|
  {
    if j < |s| - 1 { CaretLetters(s[..|s| - 1], j); }
  }

  /** The units the code makes of a word are its units. */
  lemma {:induction false} UnitsAre(text: string, lo: nat, hi: nat, i: nat, j: nat)
    requires lo <= i <= j <= hi <= |text| && (i == lo || i == j) && (i < hi ==> UnitStart(text, lo, hi, i) && CleanCut(text[..i], text[i..]))
    requires forall k :: i <= k < j ==> text[k] == ' '
    requires forall k :: j <= k < hi ==> text[k] != ' '
    ensures UnitsCover(text, lo, hi, i, UnitsFrom(text[i..j], text[j..hi]))
    decreases hi - j
  {
    hide *;
    if j < hi {
      var n := UnitLen(text[j..hi]);
      FirstUnit(text, lo, hi, i, j);
      var e := j + n;
      var tail := UnitsFrom(text[e..e], text[e..hi]);
      UnitsAre(text, lo, hi, e, e);
      CoverCons(text, lo, hi, i, e, tail);
    } else if i < j {
      LastSpaces(text, lo, hi, i);
    } else {
      NoUnits(text, lo, hi);
    }
  }

  lemma CoverCons(text: string, lo: nat, hi: nat, i: nat, e: nat, units: seq<string>)
    requires i < e <= |text| && UnitAt(text, lo, hi, i, e) && UnitsCover(text, lo, hi, e, units)
    ensures UnitsCover(text, lo, hi, i, [text[i..e]] + units)
  {
    hide UnitAt;
    assert ([text[i..e]] + units)[1..] == units;
  }

  lemma NoUnits(text: string, lo: nat, hi: nat)
    requires hi <= |text|
    ensures UnitsCover(text, lo, hi, hi, UnitsFrom(text[hi..hi], text[hi..hi]))
  {
    assert text[hi..hi] == "";
  }

  // A word of spaces alone is one unit.
  lemma LastSpaces(text: string, lo: nat, hi: nat, i: nat)
    requires lo <= i < hi <= |text| && UnitStart(text, lo, hi, i) && forall k :: i <= k < hi ==> text[k] == ' '
    ensures UnitsCover(text, lo, hi, i, UnitsFrom(text[i..hi], text[hi..hi]))
  {
    hide CleanCut;
    assert text[hi..hi] == "" && [text[i..hi]][1..] == [];
  }

  lemma FirstUnit(text: string, lo: nat, hi: nat, i: nat, j: nat)
    requires lo <= i <= j < hi <= |text| && (i == lo || i == j) && UnitStart(text, lo, hi, i) && CleanCut(text[..i], text[i..])
    requires forall k :: i <= k < j ==> text[k] == ' '
    requires forall k :: j <= k < hi ==> text[k] != ' '
    ensures var e := j + UnitLen(text[j..hi]);
      && j < e <= hi && UnitAt(text, lo, hi, i, e)
      && (e < hi ==> UnitStart(text, lo, hi, e) && CleanCut(text[..e], text[e..]))
      && UnitsFrom(text[i..j], text[j..hi]) == [text[i..e]] + UnitsFrom(text[e..e], text[e..hi])
  {
    var e := j + UnitLen(text[j..hi]);
    UnitIsClean(text, i, j, hi);
    FirstUnitText(text, i, j, hi);
    forall k | i < k < e ensures !UnitStart(text, lo, hi, k) { InsideUnit(text, lo, hi, i, j, k); }
    hide CleanCut, UnitLen, UnitsFrom;
  }

  lemma FirstUnitText(text: string, i: nat, j: nat, hi: nat)
    requires i <= j < hi <= |text|
    ensures var e := j + UnitLen(text[j..hi]);
      UnitsFrom(text[i..j], text[j..hi]) == [text[i..e]] + UnitsFrom(text[e..e], text[e..hi])
  {
    hide UnitLen;
    var n := UnitLen(text[j..hi]);
    assert text[j..hi][..n] == text[j..j + n] && text[i..j] + text[j..j + n] == text[i..j + n];
    assert text[j..hi][n..] == text[j + n..hi] && text[j + n..j + n] == "";
  }

  // ---- the words of a text ----

  /** The first word of what is left is a word of the text: spaces up to j, and none after. */
  lemma WordIs(text: string, off: nat)
    requires off < |text| && WordStart(text, off)
    ensures var hi := off + GroupLen(text[off..]); var j := off + SpaceRun(text[off..]);
      && WordAt(text, off, hi) && j <= hi
      && (forall k :: off <= k < j ==> text[k] == ' ') && (forall k :: j <= k < hi ==> text[k] != ' ')
  {
    var s := text[off..];
    GroupShape(s);
    var n, m := GroupLen(s), SpaceRun(s);
    assert m <= n;
    assert SpaceRun(s[..n]) == m by { PrefixSpaces(s, n); }
    assert forall k :: off <= k < off + n ==> text[k] == s[k - off] && s[k - off] == s[..n][k - off];
    if off + n < |text| { assert text[off + n] == s[n] && text[off + n - 1] == s[n - 1]; }
  }

  lemma {:induction false} PrefixSpaces(s: string, n: nat)
    requires SpaceRun(s) <= n <= |s|
    ensures SpaceRun(s[..n]) == SpaceRun(s)
  {
    if s != "" && s[0] == ' ' {
      PrefixSpaces(s[1..], n - 1);
      assert s[..n][1..] == s[1..][..n - 1];
    }
  }

  /** This word can be sent, whole or by its units. */
  ghost predicate WordSendable(text: string, lo: nat, hi: nat, max: int, encode: Encoder)
    requires lo <= hi <= |text|
  {
    && encode(text[lo..hi]).Some?
    && (TooWide(text[lo..hi], max, encode) ==> forall i: nat, j: nat :: UnitAt(text, lo, hi, i, j) ==> Encodes(text[i..j], max, encode))
  }

  /** The pieces spell the text from i to end, each of them unbreakable and written as the rig
      writes it. */
  ghost predicate SpellsTo(text: string, max: int, encode: Encoder, i: nat, end: nat, ps: seq<Piece>)
    decreases |ps|
  {
    if ps == [] then i == end
    else
      var j := i + |ps[0].canon|;
      && j <= |text| && ps[0].canon == text[i..j] && PieceAt(text, max, encode, i, j)
      && encode(ps[0].canon) == Some(ps[0].encoded) && SpellsTo(text, max, encode, j, end, ps[1..])
  }

  lemma {:induction false} SpellsConcat(text: string, max: int, encode: Encoder, i: nat, m: nat, end: nat, a: seq<Piece>, b: seq<Piece>)
    requires SpellsTo(text, max, encode, i, m, a) && SpellsTo(text, max, encode, m, end, b)
    ensures SpellsTo(text, max, encode, i, end, a + b)
    decreases |a|
  {
    hide PieceAt;
    if a == [] {
      assert a + b == b;
    } else {
      assert (a + b)[1..] == a[1..] + b;
      SpellsConcat(text, max, encode, i + |a[0].canon|, m, end, a[1..], b);
    }
  }

  lemma SpellsCons(text: string, max: int, encode: Encoder, i: nat, j: nat, end: nat, p: Piece, ps: seq<Piece>)
    requires i <= j <= |text| && p.canon == text[i..j] && PieceAt(text, max, encode, i, j) && encode(p.canon) == Some(p.encoded)
    requires SpellsTo(text, max, encode, j, end, ps)
    ensures SpellsTo(text, max, encode, i, end, [p] + ps)
  {
    hide PieceAt;
    assert ([p] + ps)[1..] == ps;
  }

  lemma {:induction false} UnitPiecesSpell(text: string, lo: nat, hi: nat, i: nat, units: seq<string>, max: int, encode: Encoder)
    requires WordAt(text, lo, hi) && TooWide(text[lo..hi], max, encode) && UnitsCover(text, lo, hi, i, units)
    ensures var r := UnitPieces(units, max, encode);
      && (r.Ok? <==> forall u :: u in units ==> Encodes(u, max, encode))
      && (r.Ok? ==> SpellsTo(text, max, encode, i, hi, r.value))
    decreases |units|
  {
    hide WordAt, UnitAt;
    if units != [] {
      var j := i + |units[0]|;
      UnitPiecesSpell(text, lo, hi, j, units[1..], max, encode);
      assert units[0] in units && forall u :: u in units <==> u == units[0] || u in units[1..];
      assert UnitPieces(units, max, encode).Ok? <==> Encodes(units[0], max, encode) && UnitPieces(units[1..], max, encode).Ok?;
      if UnitPieces(units, max, encode).Ok? {
        hide SpellsTo, UnitsCover;
        var ps := UnitPieces(units[1..], max, encode).value;
        UnitIsPiece(text, lo, hi, i, j, max, encode);
        SpellsCons(text, max, encode, i, j, hi, Piece(units[0], encode(units[0]).value), ps);
      }
    }
  }

  lemma UnitIsPiece(text: string, lo: nat, hi: nat, i: nat, j: nat, max: int, encode: Encoder)
    requires WordAt(text, lo, hi) && TooWide(text[lo..hi], max, encode) && UnitAt(text, lo, hi, i, j)
    requires Encodes(text[i..j], max, encode)
    ensures PieceAt(text, max, encode, i, j)
  {
    hide WordAt, TooWide, Encodes, CleanCut;
  }

  lemma {:induction false} CoverAre(text: string, lo: nat, hi: nat, i: nat, units: seq<string>, u: string)
    requires UnitsCover(text, lo, hi, i, units) && u in units
    ensures exists a: nat, b: nat :: UnitAt(text, lo, hi, a, b) && u == text[a..b]
    decreases |units|
  {
    hide UnitAt;
    if u == units[0] {
      assert UnitAt(text, lo, hi, i, i + |u|);
    } else {
      CoverAre(text, lo, hi, i + |units[0]|, units[1..], u);
    }
  }

  lemma GroupSpells(text: string, lo: nat, hi: nat, j: nat, max: int, encode: Encoder)
    requires WordAt(text, lo, hi) && lo <= j <= hi && j == lo + SpaceRun(text[lo..hi])
    requires (forall k :: lo <= k < j ==> text[k] == ' ') && (forall k :: j <= k < hi ==> text[k] != ' ')
    ensures var r := GroupPieces(text[lo..hi], max, encode);
      && (r.Ok? <==> WordSendable(text, lo, hi, max, encode))
      && (r.Ok? ==> SpellsTo(text, max, encode, lo, hi, r.value))
  {
    var word := text[lo..hi];
    if encode(word).Some? {
      if |encode(word).value| <= max {
        WholeWord(text, lo, hi, max, encode);
      } else {
        WordUnits(text, lo, hi, j);
        var units := UnitsOf(word);
        hide UnitsOf, WordAt, UnitAt, SpellsTo, UnitsCover, Encodes;
        UnitPiecesSpell(text, lo, hi, lo, units, max, encode);
        forall a: nat, b: nat | UnitAt(text, lo, hi, a, b) ensures text[a..b] in units {
          assert lo <= a by { UnitBounds(text, lo, hi, a, b); }
          CoverHas(text, lo, hi, lo, units, a, b);
        }
        forall u | u in units ensures exists a: nat, b: nat :: UnitAt(text, lo, hi, a, b) && u == text[a..b] {
          CoverAre(text, lo, hi, lo, units, u);
        }
      }
    }
  }

  lemma UnitBounds(text: string, lo: nat, hi: nat, a: nat, b: nat)
    requires UnitAt(text, lo, hi, a, b)
    ensures lo <= a < b <= hi <= |text|
  {}

  lemma WholeWord(text: string, lo: nat, hi: nat, max: int, encode: Encoder)
    requires WordAt(text, lo, hi) && Encodes(text[lo..hi], max, encode)
    ensures var p := Piece(text[lo..hi], encode(text[lo..hi]).value);
      GroupPieces(text[lo..hi], max, encode) == Ok([p]) && SpellsTo(text, max, encode, lo, hi, [p])
  {
    var p := Piece(text[lo..hi], encode(text[lo..hi]).value);
    assert [p] + [] == [p] && PieceAt(text, max, encode, lo, hi);
    hide WordAt;
    SpellsCons(text, max, encode, lo, hi, hi, p, []);
  }

  lemma WordUnits(text: string, lo: nat, hi: nat, j: nat)
    requires WordAt(text, lo, hi) && lo <= j <= hi && j == lo + SpaceRun(text[lo..hi])
    requires (forall k :: lo <= k < j ==> text[k] == ' ') && (forall k :: j <= k < hi ==> text[k] != ' ')
    ensures UnitsCover(text, lo, hi, lo, UnitsOf(text[lo..hi]))
  {
    WordIsClean(text, lo);
    var word := text[lo..hi];
    assert word[..j - lo] == text[lo..j] && word[j - lo..] == text[j..hi];
    hide WordAt, UnitsFrom, CleanCut;
    UnitsAre(text, lo, hi, lo, j);
  }

  // ---- the whole text ----

  ghost predicate SendableFrom(text: string, off: nat, max: int, encode: Encoder) {
    forall lo: nat, hi: nat :: off <= lo && WordAt(text, lo, hi) ==> WordSendable(text, lo, hi, max, encode)
  }

  /** The pieces of a text are its words that fit and the units of those that do not, in order; and
      there are any exactly if each can be sent. */
  lemma {:induction false} PiecesSpell(text: string, off: nat, max: int, encode: Encoder)
    requires off <= |text| && WordStart(text, off)
    ensures var r := Pieces(GroupsOf(text[off..]), max, encode);
      && (r.Ok? <==> SendableFrom(text, off, max, encode))
      && (r.Ok? ==> SpellsTo(text, max, encode, off, |text|, r.value))
    decreases |text| - off
  {
    if off == |text| {
      NoPieces(text, max, encode);
    } else {
      hide *;
      var n := GroupLen(text[off..]);
      var hi, j := off + n, off + SpaceRun(text[off..]);
      WordIs(text, off);
      WordEnds(text, off, hi);
      WordSpaces(text, off, hi);
      GroupSpells(text, off, hi, j, max, encode);
      PiecesSpell(text, hi, max, encode);
      PiecesStep(text, off, hi, max, encode);
      SendableStep(text, off, hi, max, encode);
      var g, rest := GroupPieces(text[off..hi], max, encode), Pieces(GroupsOf(text[hi..]), max, encode);
      if g.Ok? && rest.Ok? { SpellsConcat(text, max, encode, off, hi, |text|, g.value, rest.value); }
    }
  }

  lemma NoPieces(text: string, max: int, encode: Encoder)
    ensures var r := Pieces(GroupsOf(text[|text|..]), max, encode);
      r == Ok([]) && SendableFrom(text, |text|, max, encode) && SpellsTo(text, max, encode, |text|, |text|, [])
  {
    hide WordStart;
  }

  lemma WordEnds(text: string, lo: nat, hi: nat)
    requires WordAt(text, lo, hi)
    ensures lo < hi <= |text| && WordStart(text, hi)
  {}

  lemma WordSpaces(text: string, off: nat, hi: nat)
    requires off <= hi <= |text| && off + SpaceRun(text[off..]) <= hi
    ensures SpaceRun(text[off..hi]) == SpaceRun(text[off..])
  {
    PrefixSpaces(text[off..], hi - off);
    assert text[off..][..hi - off] == text[off..hi];
  }

  lemma PiecesStep(text: string, off: nat, hi: nat, max: int, encode: Encoder)
    requires off < |text| && hi == off + GroupLen(text[off..])
    ensures var g, rest := GroupPieces(text[off..hi], max, encode), Pieces(GroupsOf(text[hi..]), max, encode);
      var r := Pieces(GroupsOf(text[off..]), max, encode);
      && (r.Ok? <==> g.Ok? && rest.Ok?)
      && (r.Ok? ==> r.value == g.value + rest.value)
  {
    hide GroupLen, GroupPieces;
    assert text[off..][..hi - off] == text[off..hi] && text[off..][hi - off..] == text[hi..];
    assert ([text[off..hi]] + GroupsOf(text[hi..]))[1..] == GroupsOf(text[hi..]);
  }

  lemma SendableStep(text: string, off: nat, hi: nat, max: int, encode: Encoder)
    requires WordAt(text, off, hi)
    ensures SendableFrom(text, off, max, encode) <==> WordSendable(text, off, hi, max, encode) && SendableFrom(text, hi, max, encode)
  {
    hide WordSendable;
    forall lo: nat, e: nat | off <= lo && WordAt(text, lo, e) && lo < hi ensures lo == off && e == hi {}
  }

  // ---- the chunks ----

  /** Pieces packed into blocks: none empty, and each closed only because the next piece no longer
      went in. */
  ghost predicate Closed(bs: seq<seq<Piece>>, max: int) {
    && (forall k :: 0 <= k < |bs| ==> bs[k] != [])
    && (forall k :: 0 <= k < |bs| - 1 ==> |EncodedOf(bs[k])| + |bs[k + 1][0].encoded| > max)
  }

  lemma {:induction false} PackSays(cur: seq<Piece>, ps: seq<Piece>, max: int)
    ensures var bs := PackFrom(cur, ps, max);
      && Flatten(bs) == cur + ps && Closed(bs, max)
      && (cur != [] ==> bs != [] && cur <= bs[0])
    decreases |ps|
  {
    hide EncodedOf;
    if ps == [] {
      assert cur + ps == cur;
      if cur != [] { assert [cur][1..] == [] && cur + [] == cur; }
    } else {
      var p, rest := ps[0], ps[1..];
      assert cur + [p] + rest == cur + ps && [p] + rest == ps;
      if cur != [] && |EncodedOf(cur)| + |p.encoded| > max {
        PackSays([p], rest, max);
        var bs := PackFrom([p], rest, max);
        hide PackFrom;
        assert bs[0][0] == p && ([cur] + bs)[1..] == bs;
        assert forall k :: 0 < k < |[cur] + bs| ==> ([cur] + bs)[k] == bs[k - 1];
        assert cur <= cur;
      } else {
        PackSays(cur + [p], rest, max);
      }
    }
  }

  lemma {:induction false} SpellsSplit(text: string, max: int, encode: Encoder, i: nat, end: nat, a: seq<Piece>, b: seq<Piece>)
    requires SpellsTo(text, max, encode, i, end, a + b) && i <= |text|
    ensures var m := i + |CanonOf(a)|;
      && m <= |text| && CanonOf(a) == text[i..m]
      && SpellsTo(text, max, encode, i, m, a) && SpellsTo(text, max, encode, m, end, b)
    decreases |a|
  {
    hide PieceAt, CanonOf;
    if a == [] {
      MergeNone();
      assert a + b == b;
    } else {
      assert (a + b)[1..] == a[1..] + b;
      SpellsSplit(text, max, encode, i + |a[0].canon|, end, a[1..], b);
      CanonFront(a);
    }
  }

  lemma {:induction false} CanonFront(ps: seq<Piece>)
    requires ps != []
    ensures CanonOf(ps) == ps[0].canon + CanonOf(ps[1..])
    decreases |ps|
  {
    hide *;
    var front, q := ps[..|ps| - 1], ps[|ps| - 1];
    assert front + [q] == ps;
    MergePush(front, q);
    if front != [] {
      CanonFront(front);
      assert front[1..] + [q] == ps[1..];
      MergePush(front[1..], q);
    } else {
      MergeNone();
      assert ps[1..] == [];
    }
  }

  /** Where block k begins, and chunk k. */
  function BlockOffset(bs: seq<seq<Piece>>, k: nat): nat
    requires k <= |bs|
  {
    if k == 0 then 0 else |CanonOf(bs[0])| + BlockOffset(bs[1..], k - 1)
  }

  function Offset(chunks: seq<Chunk>, k: nat): nat
    requires k <= |chunks|
  {
    if k == 0 then 0 else |chunks[0].canon| + Offset(chunks[1..], k - 1)
  }

  lemma {:induction false} OffsetMerged(bs: seq<seq<Piece>>, k: nat)
    requires k <= |bs|
    ensures Offset(MergeAll(bs), k) == BlockOffset(bs, k)
  {
    hide CanonOf, EncodedOf;
    if k > 0 {
      assert MergeAll(bs)[1..] == MergeAll(bs[1..]);
      OffsetMerged(bs[1..], k - 1);
    }
  }

  lemma {:induction false} BlockSpells(text: string, max: int, encode: Encoder, i: nat, bs: seq<seq<Piece>>, k: nat)
    requires SpellsTo(text, max, encode, i, |text|, Flatten(bs)) && i <= |text| && k < |bs|
    ensures var lo := i + BlockOffset(bs, k); var hi := lo + |CanonOf(bs[k])|;
      && hi <= |text| && CanonOf(bs[k]) == text[lo..hi] && SpellsTo(text, max, encode, lo, hi, bs[k])
    decreases k
  {
    hide *;
    BlockFront(bs, k);
    SpellsSplit(text, max, encode, i, |text|, bs[0], Flatten(bs[1..]));
    if k > 0 { BlockSpells(text, max, encode, i + |CanonOf(bs[0])|, bs[1..], k - 1); }
  }

  lemma BlockFront(bs: seq<seq<Piece>>, k: nat)
    requires k < |bs|
    ensures Flatten(bs) == bs[0] + Flatten(bs[1..])
    ensures BlockOffset(bs, k) == if k == 0 then 0 else |CanonOf(bs[0])| + BlockOffset(bs[1..], k - 1)
  {}

  lemma {:induction false} BlockOffsetNext(bs: seq<seq<Piece>>, k: nat)
    requires k < |bs|
    ensures BlockOffset(bs, k + 1) == BlockOffset(bs, k) + |CanonOf(bs[k])|
  {
    hide CanonOf;
    if k > 0 { BlockOffsetNext(bs[1..], k - 1); }
  }

  lemma BuildIs(text: string, max: int, encode: Encoder)
    ensures var r := Build(text, max, encode); var p := Pieces(GroupsOf(text), max, encode);
      && (r.Ok? <==> max >= 1 && p.Ok?)
      && (r.Ok? ==> r.value == MergeAll(PackFrom([], p.value, max)) && |r.value| == |PackFrom([], p.value, max)|
                    && Flatten(PackFrom([], p.value, max)) == p.value && Closed(PackFrom([], p.value, max), max)
                    && SpellsTo(text, max, encode, 0, |text|, p.value))
      && (p.Ok? <==> SendableFrom(text, 0, max, encode))
  {
    assert text[0..] == text;
    PiecesSpell(text, 0, max, encode);
    var p := Pieces(GroupsOf(text), max, encode);
    hide Pieces, GroupsOf, SpellsTo, SendableFrom, PackFrom, Closed;
    if p.Ok? {
      PackSays([], p.value, max);
      assert [] + p.value == p.value;
    }
  }

  /** A text is taken exactly if the buffer holds something, every word can be written, and each
      unit of a word too wide for the buffer is written and fits. */
  lemma BuildsExactly(text: string, max: int, encode: Encoder)
    ensures Build(text, max, encode).Ok? <==> max >= 1 && Sendable(text, max, encode)
  {
    hide *;
    BuildIs(text, max, encode);
    FromStart(text, max, encode);
  }

  lemma FromStart(text: string, max: int, encode: Encoder)
    ensures SendableFrom(text, 0, max, encode) <==> Sendable(text, max, encode)
  {
    hide WordAt, UnitAt, Encodes, TooWide;
  }

  /** Chunk k is the text from where the ones before it end, and is written as its words and units
      are, one after the other. */
  lemma ChunkWrites(text: string, max: int, encode: Encoder, k: nat)
    requires Build(text, max, encode).Ok? && k < |Build(text, max, encode).value|
    ensures var chunks := Build(text, max, encode).value;
      var lo := Offset(chunks, k); var hi := lo + |chunks[k].canon|;
      && hi <= |text| && chunks[k].canon == text[lo..hi] && chunks[k].chars == hi - lo
      && Offset(chunks, k + 1) == hi
      && exists ps :: SpellsTo(text, max, encode, lo, hi, ps) && chunks[k].encoded == EncodedOf(ps)
  {
    hide *;
    BuildIs(text, max, encode);
    var bs := PackFrom([], Pieces(GroupsOf(text), max, encode).value, max);
    MergedAt(bs, k);
    OffsetMerged(bs, k);
    OffsetMerged(bs, k + 1);
    BlockOffsetNext(bs, k);
    BlockSpells(text, max, encode, 0, bs, k);
  }

  lemma MergedAt(bs: seq<seq<Piece>>, k: nat)
    requires k < |bs|
    ensures var c := MergeAll(bs)[k]; c.canon == CanonOf(bs[k]) && c.encoded == EncodedOf(bs[k]) && c.chars == |c.canon|
  {
    hide CanonOf, EncodedOf;
  }

  /** No chunk but the first begins anywhere but at something unbreakable that no longer went into
      the one before: a word stays whole unless it is wider than the buffer by itself, and no chunk
      ends before it has to. */
  lemma BrokenWhereNeeded(text: string, max: int, encode: Encoder, k: nat)
    requires Build(text, max, encode).Ok? && 0 < k < |Build(text, max, encode).value|
    ensures var chunks := Build(text, max, encode).value; var at := Offset(chunks, k);
      && at < |text|
      && (exists e: nat :: PieceAt(text, max, encode, at, e) && |chunks[k - 1].encoded| + |encode(text[at..e]).value| > max)
      && (text[at] == ' ' || exists lo: nat, hi: nat :: lo < at < hi && WordAt(text, lo, hi) && TooWide(text[lo..hi], max, encode))
  {
    hide *;
    BuildIs(text, max, encode);
    var bs := PackFrom([], Pieces(GroupsOf(text), max, encode).value, max);
    OffsetMerged(bs, k);
    BlockSpells(text, max, encode, 0, bs, k);
    ClosedAt(bs, k, max);
    var at := BlockOffset(bs, k);
    var e := at + |bs[k][0].canon|;
    FirstPiece(text, max, encode, at, at + |CanonOf(bs[k])|, bs[k]);
    AtPositive(bs, k, text, max, encode);
    MergedAt(bs, k - 1);
    PieceBegins(text, max, encode, at, e);
  }

  lemma ClosedAt(bs: seq<seq<Piece>>, k: nat, max: int)
    requires Closed(bs, max) && 0 < k < |bs|
    ensures bs[0] != [] && bs[k] != [] && |EncodedOf(bs[k - 1])| + |bs[k][0].encoded| > max
  {
    hide EncodedOf;
    assert bs[k - 1 + 1] == bs[k];
  }

  lemma FirstPiece(text: string, max: int, encode: Encoder, at: nat, end: nat, ps: seq<Piece>)
    requires ps != [] && SpellsTo(text, max, encode, at, end, ps)
    ensures var e := at + |ps[0].canon|;
      at < e <= |text| && PieceAt(text, max, encode, at, e) && encode(text[at..e]) == Some(ps[0].encoded)
  {
    hide WordAt, UnitAt;
  }

  lemma AtPositive(bs: seq<seq<Piece>>, k: nat, text: string, max: int, encode: Encoder)
    requires 0 < k < |bs| && bs[0] != [] && SpellsTo(text, max, encode, 0, |text|, Flatten(bs))
    ensures BlockOffset(bs, k) > 0
  {
    BlockSpells(text, max, encode, 0, bs, 0);
    CanonFront(bs[0]);
    hide CanonOf;
    assert BlockOffset(bs, 0) == 0;
  }

  lemma PieceBegins(text: string, max: int, encode: Encoder, at: nat, e: nat)
    requires PieceAt(text, max, encode, at, e) && at > 0
    ensures at < |text|
    ensures text[at] == ' ' || exists lo: nat, hi: nat :: lo < at < hi && WordAt(text, lo, hi) && TooWide(text[lo..hi], max, encode)
  {
    if !WordAt(text, at, e) {
      var lo: nat, hi: nat :| WordAt(text, lo, hi) && TooWide(text[lo..hi], max, encode) && UnitAt(text, lo, hi, at, e);
      if lo == at { assert WordStart(text, at); }
    }
  }

  /** What a refusal says is so. */
  lemma BuildRefuses(text: string, max: int, encode: Encoder)
    ensures var r := Build(text, max, encode);
      r.Err? ==> match r.error
                 case BadMaxChunk => max < 1
                 case EncodeFailed(s) => encode(s).None?
                 case TooLong(s, needs) => TooWide(s, max, encode) && needs == |encode(s).value|
  {
    hide PackFrom, GroupsOf, MergeAll;
    PiecesRefuse(GroupsOf(text), max, encode);
  }

  lemma {:induction false} PiecesRefuse(groups: seq<string>, max: int, encode: Encoder)
    ensures var r := Pieces(groups, max, encode);
      r.Err? ==> match r.error
                 case BadMaxChunk => false
                 case EncodeFailed(s) => encode(s).None?
                 case TooLong(s, needs) => TooWide(s, max, encode) && needs == |encode(s).value|
  {
    hide UnitsOf;
    if groups != [] {
      UnitsRefuse(UnitsOf(groups[0]), max, encode);
      PiecesRefuse(groups[1..], max, encode);
    }
  }

  lemma {:induction false} UnitsRefuse(units: seq<string>, max: int, encode: Encoder)
    ensures var r := UnitPieces(units, max, encode);
      r.Err? ==> match r.error
                 case BadMaxChunk => false
                 case EncodeFailed(s) => encode(s).None?
                 case TooLong(s, needs) => TooWide(s, max, encode) && needs == |encode(s).value|
  {
    if units != [] { UnitsRefuse(units[1..], max, encode); }
  }
}

/** Splitting canonical text into blocks a rig's CW buffer can take (internal/cw/chunk.go). */
module Chunks {
  import opened Basics
  import opened Morse
  import opened Timing

  newtype byte = b: int | 0 <= b < 256

  // How one radio writes a piece of text; None where it cannot.
  type Encoder = string -> Option<seq<byte>>

  datatype Piece = Piece(canon: string, encoded: seq<byte>)

  datatype Chunk = Chunk(canon: string, encoded: seq<byte>, chars: nat)

  datatype BuildError = BadMaxChunk | EncodeFailed(text: string) | TooLong(text: string, needs: nat)

  datatype CharsetError = CharsetError(rune: char, offset: nat)

  // ---- validation ----

  function Lower(r: char): char { if 'A' <= r <= 'Z' then r - 'A' + 'a' else r }

  predicate InCharset(r: char, charset: string) {
    r in charset || Upper(r) in charset || Lower(r) in charset
  }

  /** What a rig with this character set asks of position i. */
  predicate AcceptedAt(text: string, charset: string, i: nat)
    requires i < |text|
  {
    if text[i] == '^' then i + 1 < |text| && IsLetter(text[i + 1]) else InCharset(text[i], charset)
  }

  /** validate: the first unacceptable position, if there is one. */
  method Validate(text: string, charset: string) returns (r: Option<CharsetError>)
    ensures r.None? <==> forall i :: 0 <= i < |text| ==> AcceptedAt(text, charset, i)
    ensures r.Some? ==>
      && r.value.offset < |text|
      && r.value.rune == text[r.value.offset]
      && !AcceptedAt(text, charset, r.value.offset)
      && forall i :: 0 <= i < r.value.offset ==> AcceptedAt(text, charset, i)
  {
    for i := 0 to |text|
      invariant forall k :: 0 <= k < i ==> AcceptedAt(text, charset, k)
    {
      var c := text[i];
      if c == '^' {
        if i + 1 >= |text| || !IsLetter(text[i + 1]) {
          assert !AcceptedAt(text, charset, i);
          return Some(CharsetError('^', i));
        }
      } else if !InCharset(c, charset) {
        assert !AcceptedAt(text, charset, i);
        return Some(CharsetError(c, i));
      }
    }
    return None;
  }

  // ---- groups: a word with the spaces before it ----

  function SpaceRun(s: string): (n: nat)
    ensures n <= |s|
    ensures forall k :: 0 <= k < n ==> s[k] == ' '
    ensures n < |s| ==> s[n] != ' '
  {
    if s == "" || s[0] != ' ' then 0 else 1 + SpaceRun(s[1..])
  }

  function WordRun(s: string): (n: nat)
    ensures n <= |s|
    ensures forall k :: 0 <= k < n ==> s[k] != ' '
    ensures n < |s| ==> s[n] == ' '
  {
    if s == "" || s[0] == ' ' then 0 else 1 + WordRun(s[1..])
  }

  function GroupLen(s: string): (n: nat)
    requires s != ""
    ensures 0 < n <= |s|
  {
    SpaceRun(s) + WordRun(s[SpaceRun(s)..])
  }

  function GroupsOf(s: string): seq<string> {
    if s == "" then [] else [s[..GroupLen(s)]] + GroupsOf(s[GroupLen(s)..])
  }

  method Groups(text: string) returns (out: seq<string>)
    ensures out == GroupsOf(text)
  {
    hide GroupLen;
    out := [];
    var i := 0;
    assert text[0..] == text;
    while i < |text|
      invariant 0 <= i <= |text|
      invariant GroupsOf(text) == out + GroupsOf(text[i..])
    {
      var k := GroupEnd(text, i);
      assert text[i..][..k - i] == text[i..k] && text[i..][k - i..] == text[k..];
      assert out + ([text[i..k]] + GroupsOf(text[k..])) == out + [text[i..k]] + GroupsOf(text[k..]);
      out := out + [text[i..k]];
      i := k;
    }
  }

  method GroupEnd(text: string, i: nat) returns (k: nat)
    requires i < |text|
    ensures i < k <= |text| && k - i == GroupLen(text[i..])
  {
    var j := SpacesEnd(text, i);
    k := WordEnd(text, j);
    assert text[i..][j - i..] == text[j..];
  }

  method SpacesEnd(text: string, i: nat) returns (j: nat)
    requires i <= |text|
    ensures i <= j <= |text| && j - i == SpaceRun(text[i..])
  {
    j := i;
    while j < |text| && text[j] == ' '
      invariant i <= j <= |text|
      invariant SpaceRun(text[i..]) == j - i + SpaceRun(text[j..])
    {
      assert text[j..][1..] == text[j + 1..];
      j := j + 1;
    }
  }

  method WordEnd(text: string, j: nat) returns (k: nat)
    requires j <= |text|
    ensures j <= k <= |text| && k - j == WordRun(text[j..])
  {
    k := j;
    while k < |text| && text[k] != ' '
      invariant j <= k <= |text|
      invariant WordRun(text[j..]) == k - j + WordRun(text[k..])
    {
      assert text[k..][1..] == text[k + 1..];
      k := k + 1;
    }
  }

  // ---- units: the smallest things that may be separated ----

  /** The first unit of what is left of a word: a character, or a whole prosign. */
  function UnitLen(s: string): (n: nat)
    requires s != ""
    ensures 0 < n <= |s|
  {
    if s[0] == '^' then 1 + LetterRun(s[1..]) else 1
  }

  /** The units of rest, with lead glued to the first of them. */
  function UnitsFrom(lead: string, rest: string): seq<string>
    decreases |rest|
  {
    if rest == "" then (if lead == "" then [] else [lead])
    else [lead + rest[..UnitLen(rest)]] + UnitsFrom("", rest[UnitLen(rest)..])
  }

  function UnitsOf(group: string): seq<string> {
    UnitsFrom(group[..SpaceRun(group)], group[SpaceRun(group)..])
  }

  method Units(group: string) returns (out: seq<string>)
    ensures out == UnitsOf(group)
  {
    hide UnitLen;
    out := [];
    var i := 0;
    assert group[0..] == group;
    while i < |group| && group[i] == ' '
      invariant 0 <= i <= |group|
      invariant SpaceRun(group) == i + SpaceRun(group[i..])
    {
      assert group[i..][1..] == group[i + 1..];
      i := i + 1;
    }
    var lead := group[..i];
    while i < |group|
      invariant 0 <= i <= |group|
      invariant UnitsOf(group) == out + UnitsFrom(lead, group[i..])
      invariant out != [] ==> lead == ""
    {
      var j := UnitEnd(group, i);
      UnitsUnfold(lead, group, i, j, out);
      out := out + [lead + group[i..j]];
      lead := "";
      i := j;
    }
    assert group[i..] == "";
    if |out| == 0 && lead != "" {
      out := out + [lead];
    }
  }

  lemma UnitsUnfold(lead: string, group: string, i: nat, j: nat, out: seq<string>)
    requires i < j <= |group| && j - i == UnitLen(group[i..])
    ensures out + UnitsFrom(lead, group[i..]) == out + [lead + group[i..j]] + UnitsFrom("", group[j..])
  {
    hide UnitLen;
    assert group[i..][..j - i] == group[i..j] && group[i..][j - i..] == group[j..];
  }

  method UnitEnd(group: string, i: nat) returns (j: nat)
    requires i < |group|
    ensures i < j <= |group| && j - i == UnitLen(group[i..])
  {
    j := i + 1;
    assert group[i..][1..] == group[j..];
    if group[i] == '^' {
      j := LettersEnd(group, j);
    }
  }

  // ---- split ----

  /** The pieces of one over-long word, a unit at a time. */
  function UnitPieces(units: seq<string>, max: int, encode: Encoder): Result<seq<Piece>, BuildError> {
    if units == [] then Ok([]) else
      match encode(units[0])
      case None => Err(EncodeFailed(units[0]))
      case Some(enc) =>
        if |enc| > max then Err(TooLong(units[0], |enc|))
        else match UnitPieces(units[1..], max, encode)
             case Err(e) => Err(e)
             case Ok(ps) => Ok([Piece(units[0], enc)] + ps)
  }

  /** The pieces of one word: itself, if it fits. */
  function GroupPieces(group: string, max: int, encode: Encoder): Result<seq<Piece>, BuildError> {
    match encode(group)
    case None => Err(EncodeFailed(group))
    case Some(enc) =>
      if |enc| <= max then Ok([Piece(group, enc)]) else UnitPieces(UnitsOf(group), max, encode)
  }

  function Pieces(groups: seq<string>, max: int, encode: Encoder): Result<seq<Piece>, BuildError> {
    if groups == [] then Ok([]) else
      match GroupPieces(groups[0], max, encode)
      case Err(e) => Err(e)
      case Ok(ps) =>
        match Pieces(groups[1..], max, encode)
        case Err(e) => Err(e)
        case Ok(rest) => Ok(ps + rest)
  }

  function After(done: seq<Piece>, r: Result<seq<Piece>, BuildError>): Result<seq<Piece>, BuildError> {
    if r.Ok? then Ok(done + r.value) else r
  }

  method Split(text: string, max: int, encode: Encoder) returns (r: Result<seq<Piece>, BuildError>)
    ensures r == Pieces(GroupsOf(text), max, encode)
  {
    var groups := Groups(text);
    var pieces: seq<Piece> := [];
    assert groups[0..] == groups;
    AfterNothing(Pieces(groups, max, encode));
    for g := 0 to |groups|
      invariant Pieces(groups, max, encode) == After(pieces, Pieces(groups[g..], max, encode))
    {
      var group := groups[g];
      assert groups[g..][1..] == groups[g + 1..];
      var enc := encode(group);
      ghost var before := pieces;
      if enc.None? { return Err(EncodeFailed(group)); }
      if |enc.value| <= max {
        pieces := pieces + [Piece(group, enc.value)];
        AfterTwice(before, [Piece(group, enc.value)], Pieces(groups[g + 1..], max, encode));
        continue;
      }
      var units := Units(group);
      ghost var mine: seq<Piece> := [];
      assert units[0..] == units;
      AfterNothing(UnitPieces(units, max, encode));
      for u := 0 to |units|
        invariant pieces == before + mine
        invariant UnitPieces(units, max, encode) == After(mine, UnitPieces(units[u..], max, encode))
      {
        assert units[u..][1..] == units[u + 1..];
        var e := encode(units[u]);
        if e.None? { return Err(EncodeFailed(units[u])); }
        if |e.value| > max { return Err(TooLong(units[u], |e.value|)); }
        AfterTwice(mine, [Piece(units[u], e.value)], UnitPieces(units[u + 1..], max, encode));
        mine := mine + [Piece(units[u], e.value)];
        pieces := pieces + [Piece(units[u], e.value)];
      }
      assert mine + [] == mine;
      AfterTwice(before, mine, Pieces(groups[g + 1..], max, encode));
    }
    assert pieces + [] == pieces;
    r := Ok(pieces);
  }

  lemma AfterNothing(r: Result<seq<Piece>, BuildError>)
    ensures After([], r) == r
  {
    assert r.Ok? ==> [] + r.value == r.value;
  }

  lemma AfterTwice(a: seq<Piece>, b: seq<Piece>, r: Result<seq<Piece>, BuildError>)
    ensures After(a, After(b, r)) == After(a + b, r)
  {
    assert r.Ok? ==> a + (b + r.value) == a + b + r.value;
  }

  // ---- packing ----

  function CanonOf(ps: seq<Piece>): string {
    if ps == [] then "" else CanonOf(ps[..|ps| - 1]) + ps[|ps| - 1].canon
  }

  function EncodedOf(ps: seq<Piece>): seq<byte> {
    if ps == [] then [] else EncodedOf(ps[..|ps| - 1]) + ps[|ps| - 1].encoded
  }

  function Merge(ps: seq<Piece>): Chunk { Chunk(CanonOf(ps), EncodedOf(ps), |CanonOf(ps)|) }

  function MergeAll(blocks: seq<seq<Piece>>): seq<Chunk> {
    seq(|blocks|, i requires 0 <= i < |blocks| => Merge(blocks[i]))
  }

  /** Greedy packing, cur being the block still open. */
  function PackFrom(cur: seq<Piece>, ps: seq<Piece>, max: int): seq<seq<Piece>>
    decreases |ps|
  {
    if ps == [] then (if cur == [] then [] else [cur])
    else if cur != [] && |EncodedOf(cur)| + |ps[0].encoded| > max then [cur] + PackFrom([ps[0]], ps[1..], max)
    else PackFrom(cur + [ps[0]], ps[1..], max)
  }

  function Build(text: string, max: int, encode: Encoder): Result<seq<Chunk>, BuildError> {
    if max < 1 then Err(BadMaxChunk) else
      match Pieces(GroupsOf(text), max, encode)
      case Err(e) => Err(e)
      case Ok(ps) => Ok(MergeAll(PackFrom([], ps, max)))
  }

  method BuildChunks(text: string, max: int, encode: Encoder) returns (r: Result<seq<Chunk>, BuildError>)
    ensures r == Build(text, max, encode)
  {
    hide CanonOf, EncodedOf, MergeAll, Pieces;
    if max < 1 { return Err(BadMaxChunk); }
    var sp := Split(text, max, encode);
    if sp.Err? { return Err(sp.error); }
    var pieces := sp.value;
    var out: seq<Chunk> := [];
    var canon, encoded, have := "", [], false;
    ghost var done: seq<seq<Piece>>, cur: seq<Piece> := [], [];
    assert pieces[0..] == pieces;
    assert out == MergeAll(done) && canon == CanonOf(cur) && encoded == EncodedOf(cur) by { MergeNone(); }
    for i := 0 to |pieces|
      invariant out == MergeAll(done)
      invariant canon == CanonOf(cur) && encoded == EncodedOf(cur) && (have <==> cur != [])
      invariant PackFrom([], pieces, max) == done + PackFrom(cur, pieces[i..], max)
    {
      var p := pieces[i];
      assert pieces[i..][1..] == pieces[i + 1..];
      if have && |encoded| + |p.encoded| > max {
        out := out + [Chunk(canon, encoded, |canon|)];
        MergeOneMore(done, cur);
        assert done + ([cur] + PackFrom([p], pieces[i + 1..], max)) == done + [cur] + PackFrom([p], pieces[i + 1..], max);
        done, cur := done + [cur], [];
        canon, encoded, have := "", [], false;
        MergeNone();
        assert cur + [p] == [p];
      }
      MergePush(cur, p);
      canon := canon + p.canon;
      encoded := encoded + p.encoded;
      have := true;
      cur := cur + [p];
    }
    assert pieces[|pieces|..] == [] && done + [] == done;
    if have {
      out := out + [Chunk(canon, encoded, |canon|)];
      MergeOneMore(done, cur);
    }
    r := Ok(out);
  }

  lemma MergeNone()
    ensures CanonOf([]) == "" && EncodedOf([]) == [] && MergeAll([]) == []
  {}

  lemma MergePush(ps: seq<Piece>, p: Piece)
    ensures CanonOf(ps + [p]) == CanonOf(ps) + p.canon
    ensures EncodedOf(ps + [p]) == EncodedOf(ps) + p.encoded
  {
    assert (ps + [p])[..|ps|] == ps;
  }

  lemma MergeOneMore(blocks: seq<seq<Piece>>, b: seq<Piece>)
    ensures MergeAll(blocks + [b]) == MergeAll(blocks) + [Chunk(CanonOf(b), EncodedOf(b), |CanonOf(b)|)]
  {}

  // ---- where text is cut ----

  function Last(s: string): char
    requires s != ""
  {
    s[|s| - 1]
  }

  /** What may stand before next: something that does not end in a space and whose last
      prosign next does not continue. */
  predicate Seam(c: string, next: string) {
    c != "" && next != "" && CleanCut(c, next) && Last(c) != ' '
  }

  /** No piece is empty, and every seam is good: no cut splits a prosign, and only the last
      piece may end in a space. */
  predicate Cut(cs: seq<string>) {
    cs == [] || (cs[0] != "" && (|cs| == 1 || Seam(cs[0], cs[1])) && Cut(cs[1..]))
  }

  lemma CutCons(c: string, cs: seq<string>)
    requires c != "" && Cut(cs) && (cs != [] ==> Seam(c, cs[0]))
    ensures Cut([c] + cs)
  {
    assert ([c] + cs)[1..] == cs;
  }

  lemma {:induction false} CutConcat(a: seq<string>, b: seq<string>)
    requires Cut(a) && Cut(b) && (a != [] && b != [] ==> Seam(a[|a| - 1], b[0]))
    ensures Cut(a + b)
  {
    if a == [] {
      assert a + b == b;
    } else {
      CutConcat(a[1..], b);
      CutCons(a[0], a[1..] + b);
      assert [a[0]] + (a[1..] + b) == a + b;
    }
  }

  lemma FirstOfCut(cs: seq<string>)
    requires Cut(cs)
    ensures cs == [] <==> Flatten(cs) == ""
    ensures cs != [] ==> cs[0] != "" && Flatten(cs)[0] == cs[0][0]
  {}

  lemma {:induction false} LastOfCut(cs: seq<string>)
    requires Cut(cs) && cs != []
    ensures cs[|cs| - 1] != "" && Flatten(cs) != "" && Last(Flatten(cs)) == Last(cs[|cs| - 1])
  {
    if |cs| > 1 {
      LastOfCut(cs[1..]);
    } else {
      assert cs[1..] == [] && cs[0] + "" == cs[0];
    }
  }

  // A seam depends on the second text's first character alone.
  lemma SeamFirst(c: string, a: string, b: string)
    requires Seam(c, a) && b != "" && a[0] == b[0]
    ensures Seam(c, b)
  {}

  /** Spaces, then a word. */
  predicate SpacesFirst(g: string) { forall k :: SpaceRun(g) <= k < |g| ==> g[k] != ' ' }

  predicate GroupSeams(gs: seq<string>) {
    gs != [] ==>
      && gs[0] != "" && SpacesFirst(gs[0])
      && (|gs| == 1 || (Last(gs[0]) != ' ' && gs[1] != "" && gs[1][0] == ' '))
      && GroupSeams(gs[1..])
  }

  lemma {:induction false} GroupsCut(s: string)
    ensures Flatten(GroupsOf(s)) == s && GroupSeams(GroupsOf(s))
    decreases |s|
  {
    hide GroupLen, SpacesFirst;
    if s != "" {
      hide GroupSeams, Flatten;
      var n, tail := GroupLen(s), s[GroupLen(s)..];
      GroupsCut(tail);
      GroupShape(s);
      GroupSeamsCons(s[..n], GroupsOf(tail));
    }
  }

  lemma GroupSeamsCons(g: string, gs: seq<string>)
    requires g != "" && SpacesFirst(g) && GroupSeams(gs)
    requires gs != [] ==> Last(g) != ' ' && gs[0][0] == ' '
    ensures GroupSeams([g] + gs) && Flatten([g] + gs) == g + Flatten(gs)
  {
    hide SpacesFirst;
    assert ([g] + gs)[1..] == gs;
  }

  lemma GroupShape(s: string)
    requires s != ""
    ensures SpacesFirst(s[..GroupLen(s)])
    ensures GroupLen(s) < |s| ==> s[GroupLen(s)] == ' ' && s[GroupLen(s) - 1] != ' '
    ensures GroupLen(s) < |s| ==> s[GroupLen(s)..][..GroupLen(s[GroupLen(s)..])][0] == ' '
  {
    var j, n := SpaceRun(s), GroupLen(s);
    var g := s[..n];
    assert forall k :: j <= k < n ==> g[k] == s[j..][k - j] != ' ';
    if n < |s| {
      assert s[n] == s[j..][n - j];
      assert s[j] != ' ';
    }
  }

  lemma UnitClosed(lead: string, rest: string)
    requires rest != ""
    requires forall k :: 0 <= k < |lead| ==> lead[k] == ' '
    ensures CleanCut(lead + rest[..UnitLen(rest)], rest[UnitLen(rest)..])
  {
    var n := UnitLen(rest);
    var u := lead + rest[..n];
    if rest[0] != '^' {
      assert u[..|u| - 1] == lead;
      assert !OpenProsign(lead);
    } else if n < |rest| {
      assert rest[n] == rest[1..][n - 1];
    }
  }

  lemma {:induction false} UnitsCut(lead: string, rest: string)
    requires forall k :: 0 <= k < |lead| ==> lead[k] == ' '
    requires forall k :: 0 <= k < |rest| ==> rest[k] != ' '
    ensures Flatten(UnitsFrom(lead, rest)) == lead + rest && Cut(UnitsFrom(lead, rest))
    decreases |rest|
  {
    hide *;
    if rest != "" {
      var u, tail := lead + rest[..UnitLen(rest)], rest[UnitLen(rest)..];
      UnitSeam(lead, rest);
      UnitsCut("", tail);
      UnitsStep(u, tail, UnitsFrom("", tail));
    } else {
      LastUnit(lead);
      assert lead + rest == lead;
    }
  }

  lemma UnitSeam(lead: string, rest: string)
    requires rest != ""
    requires forall k :: 0 <= k < |lead| ==> lead[k] == ' '
    requires forall k :: 0 <= k < |rest| ==> rest[k] != ' '
    ensures var u, tail := lead + rest[..UnitLen(rest)], rest[UnitLen(rest)..];
      && u != "" && (tail != "" ==> Seam(u, tail)) && (forall k :: 0 <= k < |tail| ==> tail[k] != ' ')
      && u + tail == lead + rest && "" + tail == tail && |tail| < |rest|
      && UnitsFrom(lead, rest) == [u] + UnitsFrom("", tail)
  {
    UnitClosed(lead, rest);
    hide UnitLen, CleanCut;
  }

  lemma UnitsStep(u: string, tail: string, ts: seq<string>)
    requires Cut(ts) && Flatten(ts) == tail && u != "" && (tail != "" ==> Seam(u, tail))
    ensures Cut([u] + ts) && Flatten([u] + ts) == u + tail
  {
    hide Seam;
    FirstOfCut(ts);
    if ts != [] { SeamFirst(u, tail, ts[0]); }
    CutCons(u, ts);
    assert ([u] + ts)[1..] == ts;
  }

  lemma LastUnit(lead: string)
    ensures Flatten(UnitsFrom(lead, "")) == lead && Cut(UnitsFrom(lead, ""))
  {
    if lead != "" { assert [lead][1..] == [] && lead + "" == lead; }
  }

  function Canons(ps: seq<Piece>): seq<string> {
    if ps == [] then [] else [ps[0].canon] + Canons(ps[1..])
  }

  lemma {:induction false} CanonsConcat(a: seq<Piece>, b: seq<Piece>)
    ensures Canons(a + b) == Canons(a) + Canons(b)
  {
    if a == [] {
      assert a + b == b;
    } else {
      assert (a + b)[1..] == a[1..] + b;
      CanonsConcat(a[1..], b);
    }
  }

  /** Every piece is written as the rig writes it and fits the buffer. */
  predicate Fits(ps: seq<Piece>, max: int, encode: Encoder) {
    forall k :: 0 <= k < |ps| ==> |ps[k].encoded| <= max && encode(ps[k].canon) == Some(ps[k].encoded)
  }

  lemma {:induction false} UnitPiecesSound(units: seq<string>, max: int, encode: Encoder)
    ensures var r := UnitPieces(units, max, encode); r.Ok? ==> Canons(r.value) == units && Fits(r.value, max, encode)
  {
    if units != [] && UnitPieces(units, max, encode).Ok? {
      UnitPiecesSound(units[1..], max, encode);
    }
  }

  lemma GroupPiecesSound(group: string, max: int, encode: Encoder)
    requires group != "" && SpacesFirst(group)
    ensures var r := GroupPieces(group, max, encode);
      r.Ok? ==> Fits(r.value, max, encode) && Flatten(Canons(r.value)) == group && Cut(Canons(r.value))
  {
    hide UnitsFrom;
    var n := SpaceRun(group);
    UnitPiecesSound(UnitsOf(group), max, encode);
    UnitsCut(group[..n], group[n..]);
    assert group[..n] + group[n..] == group;
    if encode(group).Some? {
      var ps := [Piece(group, encode(group).value)];
      assert ps[1..] == [] && Canons(ps) == [group] && Canons(ps)[1..] == [] && group + "" == group;
    }
  }

  lemma {:induction false} PiecesSound(gs: seq<string>, max: int, encode: Encoder)
    requires GroupSeams(gs)
    ensures var r := Pieces(gs, max, encode);
      r.Ok? ==> Fits(r.value, max, encode) && Flatten(Canons(r.value)) == Flatten(gs) && Cut(Canons(r.value))
  {
    hide GroupPieces, SpacesFirst, CleanCut, Seam;
    if gs != [] && Pieces(gs, max, encode).Ok? {
      GroupPiecesSound(gs[0], max, encode);
      PiecesSound(gs[1..], max, encode);
      var a, b := GroupPieces(gs[0], max, encode).value, Pieces(gs[1..], max, encode).value;
      CanonsConcat(a, b);
      FlattenConcat(Canons(a), Canons(b));
      FitsConcat(a, b, max, encode);
      PieceSeam(gs, Canons(a), Canons(b));
      CutConcat(Canons(a), Canons(b));
    }
  }

  lemma FitsConcat(a: seq<Piece>, b: seq<Piece>, max: int, encode: Encoder)
    requires Fits(a, max, encode) && Fits(b, max, encode)
    ensures Fits(a + b, max, encode)
  {}

  lemma PieceSeam(gs: seq<string>, a: seq<string>, b: seq<string>)
    requires GroupSeams(gs) && gs != []
    requires Cut(a) && Cut(b) && Flatten(a) == gs[0] && Flatten(b) == Flatten(gs[1..])
    ensures a != [] && b != [] ==> Seam(a[|a| - 1], b[0])
  {
    if a != [] && b != [] {
      LastOfCut(a);
      FirstOfCut(b);
      assert |gs| > 1;
      assert Flatten(gs[1..]) == gs[1] + Flatten(gs[1..][1..]);
    }
  }

  // ---- what a chunk keeps ----

  function ChunkCanons(blocks: seq<seq<Piece>>): seq<string> {
    if blocks == [] then [] else [CanonOf(blocks[0])] + ChunkCanons(blocks[1..])
  }

  lemma {:induction false} OpenAfterJoin(x: string, y: string)
    requires y != "" && CleanCut(x, y) && OpenProsign(x + y)
    ensures OpenProsign(y)
    decreases |y|
  {
    assert x + "" == x;
    if Last(y) != '^' {
      assert (x + y)[..|x + y| - 1] == x + y[..|y| - 1];
      if |y| > 1 { OpenAfterJoin(x, y[..|y| - 1]); }
    }
  }

  /** Joining the first two pieces leaves good cuts. */
  lemma JoinFirst(x: string, y: string, rest: seq<string>)
    requires Cut([x] + ([y] + rest))
    ensures Cut([x + y] + rest)
  {
    assert ([x] + ([y] + rest))[1..] == [y] + rest && ([y] + rest)[1..] == rest;
    if rest != [] && OpenProsign(x + y) { OpenAfterJoin(x, y); }
    CutCons(x + y, rest);
  }

  function Open(cur: seq<Piece>): seq<string> { if cur == [] then [] else [CanonOf(cur)] }

  /** Packing keeps the text and never moves a cut into a prosign. */
  lemma {:induction false} PackCut(cur: seq<Piece>, ps: seq<Piece>, max: int)
    requires Cut(Open(cur) + Canons(ps))
    ensures var cs := ChunkCanons(PackFrom(cur, ps, max));
      Flatten(cs) == Flatten(Open(cur) + Canons(ps)) && Cut(cs)
    decreases |ps|
  {
    hide CanonOf, EncodedOf, CleanCut, Seam;
    var cs := ChunkCanons(PackFrom(cur, ps, max));
    if ps == [] {
      var bs := PackFrom(cur, ps, max);
      assert bs == if cur == [] then [] else [cur];
      if cur != [] { assert bs[1..] == [] && ChunkCanons(bs) == [CanonOf(cur)]; }
      assert Open(cur) + [] == Open(cur) == cs;
    } else {
      var p, rest := ps[0], ps[1..];
      MergeNone();
      MergePush(cur, p);
      MergePush([], p);
      assert [] + [p] == [p] && "" + p.canon == p.canon;
      assert Open([p]) + Canons(rest) == Canons(ps);
      if cur == [] {
        assert cur + [p] == [p] && Open(cur) + Canons(ps) == Canons(ps);
        PackCut([p], rest, max);
      } else {
        PackCutOpen(cur, p, rest);
        if |EncodedOf(cur)| + |p.encoded| > max {
          PackCut([p], rest, max);
          var ds := ChunkCanons(PackFrom([p], rest, max));
          assert ([CanonOf(cur)] + Canons(ps))[1..] == Canons(ps);
          assert PackFrom(cur, ps, max)[1..] == PackFrom([p], rest, max);
          assert cs == [CanonOf(cur)] + ds && cs[1..] == ds;
          FirstOfCut(ds);
          FirstOfCut(Canons(ps));
          SeamFirst(CanonOf(cur), p.canon, ds[0]);
          CutCons(CanonOf(cur), ds);
        } else {
          PackCut(cur + [p], rest, max);
        }
      }
    }
  }

  lemma PackCutOpen(cur: seq<Piece>, p: Piece, rest: seq<Piece>)
    requires cur != [] && Cut(Open(cur) + Canons([p] + rest))
    ensures Cut(Canons([p] + rest)) && Seam(CanonOf(cur), p.canon)
    ensures Cut(Open(cur + [p]) + Canons(rest))
    ensures Flatten(Open(cur + [p]) + Canons(rest)) == Flatten(Open(cur) + Canons([p] + rest))
    ensures Flatten(Open(cur) + Canons([p] + rest)) == CanonOf(cur) + Flatten(Canons([p] + rest))
  {
    var x, y, rs := CanonOf(cur), p.canon, Canons(rest);
    OpenParts(cur, p, rest);
    hide *;
    JoinCuts(x, y, rs);
    JoinFlat(x, y, rs);
  }

  lemma OpenParts(cur: seq<Piece>, p: Piece, rest: seq<Piece>)
    requires cur != []
    ensures Open(cur) == [CanonOf(cur)] && Open(cur + [p]) == [CanonOf(cur) + p.canon]
    ensures Canons([p] + rest) == [p.canon] + Canons(rest)
  {
    MergePush(cur, p);
    hide CanonOf;
    assert ([p] + rest)[1..] == rest;
  }

  lemma JoinCuts(x: string, y: string, rs: seq<string>)
    requires Cut([x] + ([y] + rs))
    ensures Cut([y] + rs) && Seam(x, y) && Cut([x + y] + rs)
  {
    assert ([x] + ([y] + rs))[1..] == [y] + rs;
    JoinFirst(x, y, rs);
    hide Seam;
  }

  lemma JoinFlat(x: string, y: string, rs: seq<string>)
    ensures Flatten([x] + ([y] + rs)) == x + Flatten([y] + rs) == Flatten([x + y] + rs)
  {
    assert ([x] + ([y] + rs))[1..] == [y] + rs && ([y] + rs)[1..] == rs && ([x + y] + rs)[1..] == rs;
    assert x + (y + Flatten(rs)) == x + y + Flatten(rs);
  }

  lemma {:induction false} PackFits(cur: seq<Piece>, ps: seq<Piece>, max: int)
    requires |EncodedOf(cur)| <= max
    requires forall k :: 0 <= k < |ps| ==> |ps[k].encoded| <= max
    ensures forall b :: b in PackFrom(cur, ps, max) ==> b != [] && |EncodedOf(b)| <= max
    decreases |ps|
  {
    hide EncodedOf;
    if ps != [] {
      MergePush(cur, ps[0]);
      MergePush([], ps[0]);
      MergeNone();
      assert [] + [ps[0]] == [ps[0]];
      var joins := cur == [] || |EncodedOf(cur)| + |ps[0].encoded| <= max;
      PackFits(if joins then cur + [ps[0]] else [ps[0]], ps[1..], max);
    }
  }

  // ---- chunking distributes over parsing ----

  /** The pieces parsed one by one, their errors reported where they stand in the whole. */
  function ParseAll(cs: seq<string>, off: nat, tolerant: bool): ParseResult {
    if cs == [] then Ok([])
    else Combine(ParseFrom(cs[0], off, tolerant), ParseAll(cs[1..], off + |cs[0]|, tolerant))
  }

  lemma {:induction false} ParsePiecewise(cs: seq<string>, off: nat, tolerant: bool)
    requires Cut(cs)
    ensures ParseFrom(Flatten(cs), off, tolerant) == ParseAll(cs, off, tolerant)
  {
    hide *;
    if cs == [] {
      ParseNothing(off, tolerant);
    } else {
      CutHead(cs);
      ParseHead(cs, off, tolerant);
      ParsePiecewise(cs[1..], off + |cs[0]|, tolerant);
      ParseConcat(cs[0], Flatten(cs[1..]), off, tolerant);
    }
  }

  lemma ParseHead(cs: seq<string>, off: nat, tolerant: bool)
    requires cs != []
    ensures ParseAll(cs, off, tolerant)
         == Combine(ParseFrom(cs[0], off, tolerant), ParseAll(cs[1..], off + |cs[0]|, tolerant))
  {}

  lemma CutHead(cs: seq<string>)
    requires cs != [] && Cut(cs)
    ensures Flatten(cs) == cs[0] + Flatten(cs[1..])
    ensures Cut(cs[1..]) && CleanCut(cs[0], Flatten(cs[1..]))
  {
    var rest := cs[1..];
    FirstOfCut(rest);
    hide Flatten, OpenProsign;
    if rest != [] { SeamFirst(cs[0], cs[1], Flatten(rest)); }
  }

  lemma ParseNothing(off: nat, tolerant: bool)
    ensures ParseFrom(Flatten([]), off, tolerant) == ParseAll([], off, tolerant) == Ok([])
  {}

  function CanonsOf(chunks: seq<Chunk>): seq<string> {
    if chunks == [] then [] else [chunks[0].canon] + CanonsOf(chunks[1..])
  }

  function CharsOf(chunks: seq<Chunk>): nat {
    if chunks == [] then 0 else chunks[0].chars + CharsOf(chunks[1..])
  }

  lemma {:induction false} MergedCanons(blocks: seq<seq<Piece>>)
    ensures CanonsOf(MergeAll(blocks)) == ChunkCanons(blocks)
    ensures CharsOf(MergeAll(blocks)) == |Flatten(ChunkCanons(blocks))|
  {
    if blocks != [] {
      assert MergeAll(blocks)[1..] == MergeAll(blocks[1..]);
      MergedCanons(blocks[1..]);
    }
  }

  /** Whatever text and whatever dialect: the chunks spell the text, each fits the buffer,
      their character counts add up, and parsing them one by one is parsing the text. */
  lemma ChunksOfText(text: string, max: int, encode: Encoder)
    ensures var r := Build(text, max, encode);
      r.Ok? ==>
        && Flatten(CanonsOf(r.value)) == text
        && Cut(CanonsOf(r.value))
        && CharsOf(r.value) == |text|
        && (forall k :: 0 <= k < |r.value| ==> |r.value[k].encoded| <= max)
        && ParseFrom(text, 0, false) == ParseAll(CanonsOf(r.value), 0, false)
        && ParseFrom(text, 0, true) == ParseAll(CanonsOf(r.value), 0, true)
  {
    hide ParseFrom, ParseAll, Pieces, PackFrom, EncodedOf, CanonOf, Cut;
    var r := Build(text, max, encode);
    if r.Ok? {
      GroupsCut(text);
      PiecesSound(GroupsOf(text), max, encode);
      var ps := Pieces(GroupsOf(text), max, encode).value;
      var bs := PackFrom([], ps, max);
      assert Open([]) + Canons(ps) == Canons(ps);
      PackCut([], ps, max);
      assert |EncodedOf([])| <= max by { MergeNone(); }
      PackFits([], ps, max);
      MergedCanons(bs);
      assert forall k :: 0 <= k < |bs| ==> bs[k] in bs;
      ParsePiecewise(CanonsOf(r.value), 0, false);
      ParsePiecewise(CanonsOf(r.value), 0, true);
    }
  }

  // ---- greedy packing is optimal ----

  function Load(ps: seq<Piece>): nat { |EncodedOf(ps)| }

  lemma {:induction false} LoadCons(p: Piece, ps: seq<Piece>)
    ensures Load([p] + ps) == |p.encoded| + Load(ps)
    decreases |ps|
  {
    MergeNone();
    if ps == [] {
      MergePush([], p);
      assert [] + [p] == [p] + [];
    } else {
      var front, q := ps[..|ps| - 1], ps[|ps| - 1];
      assert front + [q] == ps && [p] + front + [q] == [p] + ps;
      LoadCons(p, front);
      MergePush(front, q);
      MergePush([p] + front, q);
    }
  }

  /** How often packing ps closes a block, the open one holding load already. */
  function Flushes(load: nat, ps: seq<Piece>, max: int): nat
    decreases |ps|
  {
    if ps == [] then 0
    else if load + |ps[0].encoded| > max then 1 + Flushes(|ps[0].encoded|, ps[1..], max)
    else Flushes(load + |ps[0].encoded|, ps[1..], max)
  }

  lemma LoadPush(cur: seq<Piece>, p: Piece)
    ensures Load(cur + [p]) == Load(cur) + |p.encoded| && Load([p]) == |p.encoded|
  {
    MergePush(cur, p);
    MergePush([], p);
    MergeNone();
    assert [] + [p] == [p];
    hide EncodedOf;
  }

  lemma {:induction false} PackCount(cur: seq<Piece>, ps: seq<Piece>, max: int)
    requires cur != []
    ensures |PackFrom(cur, ps, max)| == 1 + Flushes(Load(cur), ps, max)
    decreases |ps|
  {
    if ps != [] {
      LoadPush(cur, ps[0]);
      hide EncodedOf;
      PackCount(if Load(cur) + |ps[0].encoded| > max then [ps[0]] else cur + [ps[0]], ps[1..], max);
    }
  }

  predicate AllFit(ps: seq<Piece>, max: int) {
    forall k :: 0 <= k < |ps| ==> |ps[k].encoded| <= max
  }

  /** A fuller open block never helps, and never costs more than one block. */
  lemma {:induction false} FlushesSlack(x: nat, y: nat, ps: seq<Piece>, max: int)
    requires AllFit(ps, max)
    ensures x <= y ==> Flushes(x, ps, max) <= Flushes(y, ps, max)
    ensures Flushes(x, ps, max) <= 1 + Flushes(y, ps, max)
    decreases |ps|
  {
    if ps != [] {
      var p := |ps[0].encoded|;
      FlushesSlack(if x + p > max then p else x + p, if y + p > max then p else y + p, ps[1..], max);
    }
  }

  predicate BlocksFit(g: seq<seq<Piece>>, load: nat, max: int) {
    g != [] ==> load + Load(g[0]) <= max && BlocksFit(g[1..], 0, max)
  }

  lemma {:induction false} NoFewerBlocks(load: nat, g: seq<seq<Piece>>, ps: seq<Piece>, max: int)
    requires g != [] && Flatten(g) == ps && BlocksFit(g, load, max) && AllFit(ps, max)
    ensures Flushes(load, ps, max) + 1 <= |g|
    decreases |g|, |g[0]|
  {
    hide EncodedOf;
    var rest := g[1..];
    if g[0] == [] {
      assert ps == Flatten(rest);
      if rest != [] {
        NoFewerBlocks(0, rest, ps, max);
        FlushesSlack(load, 0, ps, max);
      }
    } else {
      var p, tail := g[0][0], g[0][1..];
      LoadCons(p, tail);
      assert [p] + tail == g[0];
      var h := [tail] + rest;
      assert h[1..] == rest;
      assert ps == [p] + (tail + Flatten(rest));
      assert ps[1..] == Flatten(h);
      NoFewerBlocks(load + |p.encoded|, h, ps[1..], max);
    }
  }

  /** No way of cutting the same pieces, in order, into blocks the buffer can take needs
      fewer blocks than packing greedily. */
  lemma GreedyIsOptimal(text: string, max: int, encode: Encoder, g: seq<seq<Piece>>)
    requires Build(text, max, encode).Ok?
    requires Flatten(g) == Pieces(GroupsOf(text), max, encode).value
    requires BlocksFit(g, 0, max)
    ensures |Build(text, max, encode).value| <= |g|
  {
    hide Pieces, GroupsOf, EncodedOf, SpacesFirst;
    var ps := Pieces(GroupsOf(text), max, encode).value;
    GroupsCut(text);
    PiecesSound(GroupsOf(text), max, encode);
    if ps != [] {
      NoFewerBlocks(0, g, ps, max);
      MergePush([], ps[0]);
      MergeNone();
      assert [] + [ps[0]] == [ps[0]];
      PackCount([ps[0]], ps[1..], max);
    }
  }

  // ---- the estimate splits exactly ----

  /** What the strict parse accepts, the tolerant one parses alike. */
  lemma {:induction false} StrictIsTolerant(s: string, off: nat)
    ensures ParseFrom(s, off, false).Ok? ==> ParseFrom(s, off, true) == ParseFrom(s, off, false)
    decreases |s|
  {
    hide NextToken;
    if s != "" && ParseFrom(s, off, false).Ok? {
      TolerantToken(s, false);
      StrictIsTolerant(s[NextToken(s, false).len..], off + NextToken(s, false).len);
    }
  }

  function Syms(s: string, off: nat): seq<Symbol> {
    TolerantParses(s, off);
    ParseFrom(s, off, true).value
  }

  lemma SymsStep(s: string, off: nat)
    ensures s == "" ==> Syms(s, off) == []
    ensures s != "" ==> NextToken(s, true).Token?
    ensures s != "" ==> Syms(s, off) == [NextToken(s, true).sym] + Syms(s[NextToken(s, true).len..], off + NextToken(s, true).len)
  {
    hide NextToken;
    TolerantParses(s, off);
    if s != "" {
      var n := NextToken(s, true).len;
      TolerantParses(s[n..], off + n);
    }
  }

  lemma TokenSpace(s: string)
    requires s != "" && NextToken(s, true).Token?
    ensures var t := NextToken(s, true);
      && (t.sym.kind == SpaceKind <==> s[0] == ' ')
      && (t.sym.kind == SpaceKind ==> t.len == 1)
      && (t.len > 1 ==> IsLetter(s[t.len - 1]))
  {
    hide Pattern;
    if s[0] == '^' && LetterRun(s[1..]) > 0 { assert s[LetterRun(s[1..])] == s[1..][LetterRun(s[1..]) - 1]; }
  }

  /** Word gaps at the two ends are read off the text. */
  lemma {:induction false} EdgesOfText(s: string, off: nat)
    ensures LeadSpaces(Syms(s, off)) == SpaceRun(s)
    ensures s != "" ==> (EndsInMark(Syms(s, off)) <==> Last(s) != ' ')
    ensures s == "" <==> Syms(s, off) == []
    decreases |s|
  {
    hide NextToken, Syms;
    SymsStep(s, off);
    if s != "" {
      TokenSpace(s);
      var n := NextToken(s, true).len;
      EdgesOfText(s[n..], off + n);
      var rest := Syms(s[n..], off + n);
      assert Syms(s, off)[1..] == rest;
      if rest == [] {
        assert Last(s) == s[n - 1];
      } else {
        assert Last(s[n..]) == Last(s);
      }
      if s[0] != ' ' { assert LeadSpaces(Syms(s, off)) == 0 == SpaceRun(s); }
    }
  }

  /** The symbols do not depend on where the text stands. */
  lemma {:induction false} SymsAnywhere(s: string, off: nat)
    ensures Syms(s, off) == Syms(s, 0)
    decreases |s|
  {
    hide NextToken, Syms;
    SymsStep(s, off);
    SymsStep(s, 0);
    if s != "" {
      var n := NextToken(s, true).len;
      SymsAnywhere(s[n..], off + n);
      SymsAnywhere(s[n..], n);
    }
  }

  /** The silence in front of a chunk that follows another: its leading word gaps, or a
      letter gap. */
  function Silence(t: Timing, c: string): int {
    if SpaceRun(c) > 0 then SpaceRun(c) * t.wordGap else t.charGap
  }

  /** Each chunk timed on its own, and the silence between them. */
  function PiecewiseTime(t: Timing, cs: seq<string>): int {
    if cs == [] then 0
    else SymbolsTime(t, Syms(cs[0], 0)) + (if |cs| > 1 then Silence(t, cs[1]) else 0) + PiecewiseTime(t, cs[1..])
  }

  lemma {:induction false} TimePiecewise(t: Timing, cs: seq<string>)
    requires Cut(cs)
    ensures SymbolsTime(t, Syms(Flatten(cs), 0)) == PiecewiseTime(t, cs)
  {
    hide ParseFrom, CleanCut;
    if cs == [] {
      SymsStep("", 0);
    } else if |cs| == 1 {
      assert cs[1..] == [] && cs[0] + "" == cs[0];
    } else {
      var c, rest := cs[0], Flatten(cs[1..]);
      FirstOfCut(cs[1..]);
      SeamFirst(c, cs[1], rest);
      ParseConcat(c, rest, 0, true);
      TolerantParses(c, 0);
      TolerantParses(rest, |c|);
      SymsAnywhere(rest, |c|);
      var a, b := Syms(c, 0), Syms(rest, 0);
      assert Syms(Flatten(cs), 0) == a + b;
      EdgesOfText(c, 0);
      EdgesOfText(rest, 0);
      assert a[|a| - 1].kind != SpaceKind;
      TimeConcat(t, a, b, false, false);
      TimeJoined(t, b);
      FirstSpaces(cs[1..]);
      TimePiecewise(t, cs[1..]);
    }
  }

  lemma FirstSpaces(cs: seq<string>)
    requires Cut(cs) && cs != []
    ensures SpaceRun(Flatten(cs)) == SpaceRun(cs[0])
  {
    if |cs| > 1 {
      SpaceRunConcat(cs[0], Flatten(cs[1..]));
    } else {
      assert cs[1..] == [] && cs[0] + "" == cs[0];
    }
  }

  lemma {:induction false} SpaceRunConcat(a: string, b: string)
    requires a != "" && Last(a) != ' '
    ensures SpaceRun(a + b) == SpaceRun(a)
  {
    assert (a + b)[1..] == a[1..] + b;
    if a[0] == ' ' { SpaceRunConcat(a[1..], b); }
  }

  /** The estimate of a whole text is the sum of its chunks' estimates and, at every chunk
      boundary, one letter gap, or one word gap for each space the next chunk opens with. */
  lemma EstimateSplits(text: string, max: int, encode: Encoder, wpm: int, weight: int)
    requires Build(text, max, encode).Ok?
    ensures EstimateTime(text, wpm, weight)
         == PiecewiseTime(NewTiming(wpm, weight), CanonsOf(Build(text, max, encode).value))
  {
    hide Build, NewTiming;
    ChunksOfText(text, max, encode);
    TimePiecewise(NewTiming(wpm, weight), CanonsOf(Build(text, max, encode).value));
  }

  // ---- what a rig accepts ----

  /** A rig's character set means its characters in either case. */
  lemma CharsetFoldsCase(r: char, charset: string)
    ensures InCharset(r, charset) <==> exists k :: 0 <= k < |charset| && Upper(charset[k]) == Upper(r)
  {
    if InCharset(r, charset) {
      var c := if r in charset then r else if Upper(r) in charset then Upper(r) else Lower(r);
      var k :| 0 <= k < |charset| && charset[k] == c;
    }
    if k :| 0 <= k < |charset| && Upper(charset[k]) == Upper(r) {
      assert charset[k] == r || charset[k] == Upper(r) || charset[k] == Lower(r);
    }
  }

  /** So what a rig accepts, in any case, is what it accepts upper-cased. */
  lemma AcceptedInAnyCase(text: string, charset: string, i: nat)
    requires i < |text|
    ensures AcceptedAt(UpperString(text), charset, i) <==> AcceptedAt(text, charset, i)
  {
    CharsetFoldsCase(text[i], charset);
    CharsetFoldsCase(Upper(text[i]), charset);
    assert Upper(Upper(text[i])) == Upper(text[i]);
    hide InCharset;
  }

  /** Where a rig keys no character that Morse has not, what it accepts parses. */
  lemma AcceptedParses(text: string, charset: string)
    requires forall k :: 0 <= k < |charset| ==> Keyable(charset[k]) || charset[k] == ' '
    requires forall i :: 0 <= i < |text| ==> AcceptedAt(text, charset, i)
    ensures ParseFrom(text, 0, false).Ok?
  {
    hide ParseFrom, WellFormedAt;
    ParseAccepts(text, 0);
    forall i | 0 <= i < |text| ensures WellFormedAt(text, i) { AcceptedIsWellFormed(text, charset, i); }
  }

  lemma AcceptedIsWellFormed(text: string, charset: string, i: nat)
    requires forall k :: 0 <= k < |charset| ==> Keyable(charset[k]) || charset[k] == ' '
    requires i < |text| && AcceptedAt(text, charset, i)
    ensures WellFormedAt(text, i)
  {
    if text[i] != '^' {
      CharsetFoldsCase(text[i], charset);
      hide Pattern, InCharset;
      var k :| 0 <= k < |charset| && Upper(charset[k]) == Upper(text[i]);
      assert Keyable(charset[k]) || charset[k] == ' ';
    }
  }
}

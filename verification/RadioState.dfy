/** The state cache's algebra: State.Apply and State.Diff (internal/radio/types.go), the delta
    the server renders (internal/ws/message.go) and what a client does with it
    (internal/client/stream.go). */
module RadioState {
  import opened Basics

  // Every field of the state but the bookkeeping pair, seq and updated_at.
  datatype Field =
    | Frequency | Mode | DataMode | PassbandHz | FilterSlot | Power | Ptt | CW | Connected
    | Vfo | VfoA | VfoB | Split | DualWatch | SelectedBand | BreakIn | Tuner | Standby | Agc | NotchWidth
    | SMeter | SubSMeter
    | PowerMeter | Swr | Alc | SwrRatio
    | Preamp | AttenuatorDB | RFGain | IPPlus | DigiSel | DigiSelShift
    | NoiseBlanker | NBLevel | NoiseReduction | NRLevel | Notch | NotchFreq | AutoNotch | Antenna | RXAntenna
    | TXAudioGain | Proc | ProcLevel

  // How the code treats a field: always present; always present and holding an optional part
  // of its own; present only while transmitting; optional; optional and never compared.
  datatype Class = Plain | LiveMeter | TxMeter | Optional | TxAudio

  function ClassOf(f: Field): Class {
    if f.SMeter? || f.SubSMeter? then LiveMeter
    else if f.PowerMeter? || f.Swr? || f.Alc? || f.SwrRatio? then TxMeter
    else if f.TXAudioGain? || f.Proc? || f.ProcLevel? then TxAudio
    else if f.Preamp? || f.AttenuatorDB? || f.RFGain? || f.IPPlus? || f.DigiSel? || f.DigiSelShift?
      || f.NoiseBlanker? || f.NBLevel? || f.NoiseReduction? || f.NRLevel? || f.Notch? || f.NotchFreq?
      || f.AutoNotch? || f.Antenna? || f.RXAntenna? then Optional
    else Plain
  }

  // A meter deflection; s is the calibrated figure, where the model has one.
  datatype Reading = Reading(raw: int, scale: int, s: Option<real>)

  datatype Value =
    | Absent
    | Flag(on: bool)
    | Number(n: int)
    | Level(x: real)
    | Word(text: string)
    | Watts(watts: Option<real>, pct: real, native: int)
    | Gauge(reading: Reading)
    | CWQueue(busy: bool, queued: int, wpm: int, remainingMs: int)
    | VfoDetail(hz: int, mode: string, data: bool, passband: int, slot: int)

  type State = Field -> Value

  type Patch = map<Field, Value>

  predicate Typed(f: Field, v: Value) {
    match ClassOf(f)
    case Plain => !v.Absent? && (f.Ptt? ==> v.Flag?)
    case LiveMeter => v.Gauge?
    case _ => true
  }

  predicate Transmitting(s: State) { s(Ptt) == Flag(true) }

  ghost predicate ValidState(s: State) { forall f: Field :: Typed(f, s(f)) }

  // A field a patch names always has a value: it cannot say that something went away.
  predicate ValidPatch(p: Patch) { forall f :: f in p ==> Typed(f, p[f]) && !p[f].Absent? }

  ghost predicate Same(a: State, b: State) { forall f: Field :: a(f) == b(f) }

  // ---- the cache ----

  function Merged(s: State, p: Patch): State { f => if f in p then p[f] else s(f) }

  function Apply(s: State, p: Patch): State {
    var m := Merged(s, p);
    f => if ClassOf(f) == TxMeter && !Transmitting(m) then Absent else m(f)
  }

  predicate InDiff(s: State, next: State, f: Field) {
    ClassOf(f) != TxAudio && s(f) != next(f) && (next(f) != Absent || ClassOf(f) == Plain || ClassOf(f) == LiveMeter)
  }

  function Diff(s: State, next: State): Patch { map f: Field | InDiff(s, next, f) :: next(f) }

  // ---- the delta message and the client ----

  predicate IsMeter(f: Field) { ClassOf(f) == TxMeter }

  /** The transmit meters go out as a group, when one of them moved or the transmission ended. */
  predicate MetersGoOut(p: Patch) {
    (exists f :: f in p && IsMeter(f)) || (Ptt in p && p[Ptt] == Flag(false))
  }

  function ChangedFields(p: Patch, st: State): Patch {
    map f: Field | if IsMeter(f) then MetersGoOut(p) else f in p :: if IsMeter(f) then st(f) else p[f]
  }

  /** Decoding one named field onto the snapshot. A signal meter's own optional figure is left
      out of the message when it is absent, and a member that is left out leaves what was there. */
  function Decoded(held: Value, sent: Value, f: Field): Value {
    if ClassOf(f) == LiveMeter && held.Gauge? && sent.Gauge? && sent.reading.s.None?
    then Gauge(sent.reading.(s := held.reading.s)) else sent
  }

  function ApplyDelta(view: State, changed: Patch): State {
    f => if f in changed then Decoded(view(f), changed[f], f) else view(f)
  }

  // ---- the laws ----

  /** The transmit meters hold something only while the radio transmits. */
  ghost predicate MetersQuiet(s: State) { !Transmitting(s) ==> forall f: Field :: IsMeter(f) ==> s(f) == Absent }

  /** p leaves the transmit audio settings, which no comparison looks at, as s has them. */
  predicate KeepsAudio(s: State, p: Patch) { forall f :: f in p && ClassOf(f) == TxAudio ==> p[f] == s(f) }

  /** A signal meter that moves from a to b does not lose its calibrated figure on the way. */
  ghost predicate KeepsCalibration(a: State, b: State) {
    forall f: Field :: ClassOf(f) == LiveMeter && a(f) != b(f) && a(f).Gauge? && b(f).Gauge? && b(f).reading.s.None?
      ==> a(f).reading.s.None?
  }

  lemma ApplyValid(s: State, p: Patch)
    requires ValidState(s) && ValidPatch(p)
    ensures ValidState(Apply(s, p)) && MetersQuiet(Apply(s, p))
    ensures ValidPatch(Diff(s, Apply(s, p)))
  {
    var m := Merged(s, p);
    assert Apply(s, p)(Ptt) == m(Ptt);
    assert forall f: Field :: Typed(f, m(f));
  }

  /** Applying the difference redoes the change, unless the change was to the transmit audio:
      then, and only then, it does not. */
  lemma ApplyDiff(s: State, p: Patch)
    requires ValidState(s) && ValidPatch(p)
    ensures Same(Apply(s, Diff(s, Apply(s, p))), Apply(s, p)) <==> KeepsAudio(s, p)
  {
    var next := Apply(s, p);
    var d := Diff(s, next);
    ApplyValid(s, p);
    var m := Merged(s, d);
    var mp := Merged(s, p);
    assert next(Ptt) == mp(Ptt);
    assert m(Ptt) == next(Ptt) by { assert Typed(Ptt, next(Ptt)); }
    var redone := Apply(s, d);
    forall f: Field | ClassOf(f) != TxAudio ensures redone(f) == next(f) {
      if IsMeter(f) {
        assert redone(f) == if Transmitting(m) then m(f) else Absent;
        assert next(f) == if Transmitting(m) then mp(f) else Absent;
        assert mp(f) == Absent ==> s(f) == Absent;
      } else {
        assert next(f) == mp(f) && redone(f) == m(f);
        assert Typed(f, next(f)) && (ClassOf(f) == Optional && next(f) == Absent ==> s(f) == Absent);
      }
    }
    forall f: Field | ClassOf(f) == TxAudio ensures redone(f) == s(f) && next(f) == mp(f) {}
  }

  /** A client that held s holds the next state after one delta exactly when the change left the
      transmit audio alone, no signal meter lost its calibrated figure, and no transmit meter
      was showing while the radio was not transmitting. */
  lemma ClientFollows(s: State, p: Patch)
    requires ValidState(s) && ValidPatch(p)
    ensures var next := Apply(s, p);
      Same(ApplyDelta(s, ChangedFields(Diff(s, next), next)), next)
      <==> KeepsAudio(s, p) && KeepsCalibration(s, next) && (MetersQuiet(s) || Transmitting(next))
  {
    var next := Apply(s, p);
    var d := Diff(s, next);
    var view := ApplyDelta(s, ChangedFields(d, next));
    ApplyValid(s, p);
    var mp := Merged(s, p);
    assert next(Ptt) == mp(Ptt) && Typed(Ptt, next(Ptt)) && Typed(Ptt, s(Ptt));
    forall f: Field | ClassOf(f) == Plain || ClassOf(f) == Optional ensures view(f) == next(f) {
      assert Typed(f, next(f)) && (ClassOf(f) == Optional && next(f) == Absent ==> s(f) == Absent);
    }
    forall f: Field | ClassOf(f) == TxAudio ensures view(f) == s(f) && next(f) == mp(f) {}
    forall f: Field | ClassOf(f) == LiveMeter
      ensures view(f) == if s(f) == next(f) then s(f) else Decoded(s(f), next(f), f)
      ensures view(f) != next(f) <==> s(f) != next(f) && next(f).reading.s.None? && s(f).reading.s.Some?
    {
      assert Typed(f, next(f)) && Typed(f, s(f));
    }
    MetersFollow(s, p);
    if Same(view, next) {
      forall f | f in p && ClassOf(f) == TxAudio ensures p[f] == s(f) { assert view(f) == next(f) == mp(f); }
      forall f: Field | ClassOf(f) == LiveMeter ensures view(f) == next(f) {}
    }
  }

  lemma MetersFollow(s: State, p: Patch)
    requires ValidState(s) && ValidPatch(p)
    ensures var next := Apply(s, p);
      var view := ApplyDelta(s, ChangedFields(Diff(s, next), next));
      (forall f: Field :: IsMeter(f) ==> view(f) == next(f)) <==> MetersQuiet(s) || Transmitting(next)
  {
    var next := Apply(s, p);
    var d := Diff(s, next);
    var view := ApplyDelta(s, ChangedFields(d, next));
    ApplyValid(s, p);
    var mp := Merged(s, p);
    assert next(Ptt) == mp(Ptt) && Typed(Ptt, next(Ptt)) && Typed(Ptt, s(Ptt));
    if Transmitting(next) {
      forall f: Field | IsMeter(f) ensures view(f) == next(f) {
        assert next(f) == mp(f);
        if s(f) != next(f) { assert f in d; }
      }
    } else {
      assert forall f: Field :: IsMeter(f) ==> next(f) == Absent && f !in d;
      if Transmitting(s) { assert Ptt in d; } else { assert Ptt !in d && !MetersGoOut(d); }
    }
  }

  // ---- whole runs ----

  function ApplyAll(s: State, ps: seq<Patch>): State {
    if ps == [] then s else ApplyAll(Apply(s, ps[0]), ps[1..])
  }

  /** A client that is sent every delta of a run, in order. */
  function Track(view: State, s: State, ps: seq<Patch>): State {
    if ps == [] then view else
      var next := Apply(s, ps[0]);
      Track(ApplyDelta(view, ChangedFields(Diff(s, next), next)), next, ps[1..])
  }

  ghost predicate Trackable(s: State, ps: seq<Patch>) {
    ps == [] || (ValidPatch(ps[0]) && KeepsAudio(s, ps[0]) && KeepsCalibration(s, Apply(s, ps[0]))
                 && Trackable(Apply(s, ps[0]), ps[1..]))
  }

  lemma DeltaOfSame(a: State, b: State, changed: Patch)
    requires Same(a, b)
    ensures Same(ApplyDelta(a, changed), ApplyDelta(b, changed))
  {}

  /** Sent every delta, a client that starts level with the cache stays level with it. */
  lemma {:induction false} FoldLaw(view: State, s: State, ps: seq<Patch>)
    requires ValidState(s) && MetersQuiet(s) && Same(view, s) && Trackable(s, ps)
    ensures Same(Track(view, s, ps), ApplyAll(s, ps))
  {
    if ps != [] {
      var next := Apply(s, ps[0]);
      var changed := ChangedFields(Diff(s, next), next);
      ApplyValid(s, ps[0]);
      ClientFollows(s, ps[0]);
      DeltaOfSame(view, s, changed);
      FoldLaw(ApplyDelta(view, changed), next, ps[1..]);
    }
  }

  /** When one event overwrites another in the state lane only the second one's delta goes out.
      That is enough exactly when it names every field the first one moved. */
  lemma CoalescingLoses(s0: State, p1: Patch, p2: Patch)
    requires ValidState(s0) && MetersQuiet(s0) && ValidPatch(p1) && ValidPatch(p2)
    requires KeepsAudio(s0, p1) && KeepsAudio(Apply(s0, p1), p2)
    requires KeepsCalibration(s0, Apply(Apply(s0, p1), p2)) && KeepsCalibration(Apply(s0, p1), Apply(Apply(s0, p1), p2))
    ensures var s1 := Apply(s0, p1);
      var s2 := Apply(s1, p2);
      var sent := ChangedFields(Diff(s1, s2), s2);
      Same(ApplyDelta(s0, sent), s2) <==> forall f: Field :: s0(f) != s1(f) ==> f in sent
  {
    var s1 := Apply(s0, p1);
    var s2 := Apply(s1, p2);
    var sent := ChangedFields(Diff(s1, s2), s2);
    var view := ApplyDelta(s0, sent);
    ApplyValid(s0, p1);
    ApplyValid(s1, p2);
    ClientFollows(s1, p2);
    var follows := ApplyDelta(s1, sent);
    forall f: Field ensures f !in sent ==> s1(f) == s2(f) {
      assert follows(f) == s2(f);
    }
    forall f: Field ensures f in sent ==> view(f) == s2(f) {
      assert follows(f) == s2(f) && Typed(f, s2(f)) && Typed(f, s0(f)) && Typed(f, s1(f));
    }
  }

  // ---- where following fails ----

  function Zero(f: Field): Value {
    match f
    case Frequency => Number(0) case PassbandHz => Number(0) case FilterSlot => Number(0)
    case DataMode => Flag(false) case Ptt => Flag(false) case Connected => Flag(false)
    case Split => Flag(false) case DualWatch => Flag(false) case Standby => Flag(false)
    case Power => Watts(None, 0.0, 0)
    case CW => CWQueue(false, 0, 0, 0)
    case VfoA => VfoDetail(0, "", false, 0, 0) case VfoB => VfoDetail(0, "", false, 0, 0)
    case _ => Word("")
  }

  // What a session holds before the radio has answered anything.
  function Rest(): State {
    f => match ClassOf(f)
         case Plain => Zero(f)
         case LiveMeter => Gauge(Reading(0, 0, None))
         case _ => Absent
  }

  lemma RestValid()
    ensures ValidState(Rest()) && MetersQuiet(Rest())
  {
    hide ClassOf;
  }

  /** A frequency change overwritten by a mode change never reaches the client. */
  lemma CoalescingExample()
    ensures var s1 := Apply(Rest(), map[Frequency := Number(14_025_000)]);
      var s2 := Apply(s1, map[Mode := Word("CW")]);
      var view := ApplyDelta(Rest(), ChangedFields(Diff(s1, s2), s2));
      view(Mode) == s2(Mode) && view(Frequency) != s2(Frequency)
  {
    assert ClassOf(Frequency) == Plain && ClassOf(Mode) == Plain;
    hide ClassOf;
    var s1 := Apply(Rest(), map[Frequency := Number(14_025_000)]);
    var s2 := Apply(s1, map[Mode := Word("CW")]);
    assert s2(Frequency) == s1(Frequency) == Number(14_025_000);
    assert Frequency !in Diff(s1, s2);
  }

  /** A change of transmit gain is stored and nothing is published about it. */
  lemma AudioExample()
    ensures var next := Apply(Rest(), map[TXAudioGain := Level(50.0)]);
      next(TXAudioGain) != Rest()(TXAudioGain) && Diff(Rest(), next) == map[]
  {
    assert ClassOf(TXAudioGain) == TxAudio && ClassOf(Ptt) == Plain;
    hide ClassOf;
    var next := Apply(Rest(), map[TXAudioGain := Level(50.0)]);
    forall f: Field ensures !InDiff(Rest(), next, f) {
      assert f != TXAudioGain ==> next(f) == Rest()(f);
    }
  }

  /** A reading without a calibrated figure leaves the previous one on the client's display. */
  lemma CalibrationExample()
    ensures var s := Apply(Rest(), map[SMeter := Gauge(Reading(9, 30, Some(9.0)))]);
      var next := Apply(s, map[SMeter := Gauge(Reading(4, 30, None))]);
      ApplyDelta(s, ChangedFields(Diff(s, next), next))(SMeter) == Gauge(Reading(4, 30, Some(9.0)))
  {
    assert ClassOf(SMeter) == LiveMeter;
    hide ClassOf;
    var s := Apply(Rest(), map[SMeter := Gauge(Reading(9, 30, Some(9.0)))]);
    var next := Apply(s, map[SMeter := Gauge(Reading(4, 30, None))]);
    assert SMeter in Diff(s, next);
  }
}

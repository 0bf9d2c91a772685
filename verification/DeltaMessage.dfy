/** Rendering a patch as the object of a delta message, field by field (internal/ws/message.go). */
module DeltaMessage {
  import opened Basics
  import opened RadioState

  /** Where in the chain of branches a field comes up. */
  function Place(f: Field): (n: nat)
    ensures n < 44
  {
    match f
    case Frequency => 0 case Mode => 1 case DataMode => 2 case PassbandHz => 3 case FilterSlot => 4
    case Power => 5 case Ptt => 6 case SMeter => 7 case CW => 8 case Connected => 9 case Vfo => 10
    case VfoA => 11 case VfoB => 12 case Split => 13 case DualWatch => 14 case SubSMeter => 15
    case SelectedBand => 16 case BreakIn => 17 case PowerMeter => 18 case Swr => 19 case Alc => 20
    case SwrRatio => 21 case Tuner => 22 case Standby => 23 case Preamp => 24 case AttenuatorDB => 25
    case RFGain => 26 case Agc => 27 case IPPlus => 28 case DigiSel => 29 case DigiSelShift => 30
    case NoiseBlanker => 31 case NBLevel => 32 case NoiseReduction => 33 case NRLevel => 34 case Notch => 35
    case NotchFreq => 36 case NotchWidth => 37 case AutoNotch => 38 case Antenna => 39 case RXAntenna => 40
    case TXAudioGain => 41 case Proc => 42 case ProcLevel => 43
  }

  function FieldAt(n: nat): Field {
    match n
    case 0 => Frequency case 1 => Mode case 2 => DataMode case 3 => PassbandHz case 4 => FilterSlot
    case 5 => Power case 6 => Ptt case 7 => SMeter case 8 => CW case 9 => Connected case 10 => Vfo
    case 11 => VfoA case 12 => VfoB case 13 => Split case 14 => DualWatch case 15 => SubSMeter
    case 16 => SelectedBand case 17 => BreakIn case 18 => PowerMeter case 19 => Swr case 20 => Alc
    case 21 => SwrRatio case 22 => Tuner case 23 => Standby case 24 => Preamp case 25 => AttenuatorDB
    case 26 => RFGain case 27 => Agc case 28 => IPPlus case 29 => DigiSel case 30 => DigiSelShift
    case 31 => NoiseBlanker case 32 => NBLevel case 33 => NoiseReduction case 34 => NRLevel case 35 => Notch
    case 36 => NotchFreq case 37 => NotchWidth case 38 => AutoNotch case 39 => Antenna case 40 => RXAntenna
    case 41 => TXAudioGain case 42 => Proc case _ => ProcLevel
  }

  lemma PlacesDiffer(f: Field)
    ensures FieldAt(Place(f)) == f
  {
    if Place(f) < 22 { EarlyPlaces(f); } else { LatePlaces(f); }
    hide Place, FieldAt;
  }

  lemma EarlyPlaces(f: Field)
    requires Place(f) < 22
    ensures FieldAt(Place(f)) == f
  {}

  lemma LatePlaces(f: Field)
    requires Place(f) >= 22
    ensures FieldAt(Place(f)) == f
  {}

  predicate Mentioned(p: Patch, f: Field) { if IsMeter(f) then MetersGoOut(p) else f in p }

  /** m holds what the message says of the first n fields. */
  ghost predicate Rendered(m: Patch, p: Patch, st: State, n: nat) {
    forall f: Field ::
      && (f in m <==> Place(f) < n && Mentioned(p, f))
      && (f in m && IsMeter(f) ==> m[f] == st(f))
      && (f in m && !IsMeter(f) ==> f in p && m[f] == p[f])
  }

  /** One branch of the chain: a field the patch sets goes into the message. */
  method Put(m: Patch, p: Patch, f: Field, ghost st: State) returns (r: Patch)
    requires !IsMeter(f) && Rendered(m, p, st, Place(f))
    ensures Rendered(r, p, st, Place(f) + 1)
  {
    hide Place, FieldAt, IsMeter, MetersGoOut;
    r := m;
    if f in p { r := m[f := p[f]]; }
    forall g: Field ensures Place(g) == Place(f) <==> g == f {
      PlacesDiffer(f);
      PlacesDiffer(g);
    }
  }

  /** The transmit meters, as a group and from the state. */
  method PutMeters(m: Patch, p: Patch, st: State) returns (r: Patch)
    requires Rendered(m, p, st, 18)
    ensures Rendered(r, p, st, 22)
  {
    r := m;
    MetersAre(p);
    hide Place, FieldAt, IsMeter, MetersGoOut;
    if PowerMeter in p || Swr in p || Alc in p || SwrRatio in p || (Ptt in p && p[Ptt] == Flag(false)) {
      r := m[PowerMeter := st(PowerMeter)][Swr := st(Swr)][Alc := st(Alc)][SwrRatio := st(SwrRatio)];
    }
  }

  lemma MetersAre(p: Patch)
    ensures forall f: Field :: IsMeter(f) <==> f == PowerMeter || f == Swr || f == Alc || f == SwrRatio
    ensures forall f: Field :: IsMeter(f) <==> 18 <= Place(f) < 22
    ensures MetersGoOut(p) <==> PowerMeter in p || Swr in p || Alc in p || SwrRatio in p || (Ptt in p && p[Ptt] == Flag(false))
  {
    hide FieldAt;
  }

  lemma TuningPlaces()
    ensures Place(Frequency) == 0
    ensures Place(Mode) == 1
    ensures Place(DataMode) == 2
    ensures Place(PassbandHz) == 3
    ensures Place(FilterSlot) == 4
    ensures Place(Power) == 5
    ensures Place(Ptt) == 6
    ensures Place(SMeter) == 7
    ensures Place(CW) == 8
    ensures Place(Connected) == 9
  {}

  method PutTuning(m: Patch, p: Patch, ghost st: State) returns (r: Patch)
    requires Rendered(m, p, st, 0)
    ensures Rendered(r, p, st, 10)
  {
    hide *;
    MetersAre(p);
    TuningPlaces();
    r := m;
    r := Put(r, p, Frequency, st);
    r := Put(r, p, Mode, st);
    r := Put(r, p, DataMode, st);
    r := Put(r, p, PassbandHz, st);
    r := Put(r, p, FilterSlot, st);
    r := Put(r, p, Power, st);
    r := Put(r, p, Ptt, st);
    r := Put(r, p, SMeter, st);
    r := Put(r, p, CW, st);
    r := Put(r, p, Connected, st);
  }

  lemma VfosPlaces()
    ensures Place(Vfo) == 10
    ensures Place(VfoA) == 11
    ensures Place(VfoB) == 12
    ensures Place(Split) == 13
    ensures Place(DualWatch) == 14
    ensures Place(SubSMeter) == 15
    ensures Place(SelectedBand) == 16
    ensures Place(BreakIn) == 17
  {}

  method PutVfos(m: Patch, p: Patch, ghost st: State) returns (r: Patch)
    requires Rendered(m, p, st, 10)
    ensures Rendered(r, p, st, 18)
  {
    hide *;
    MetersAre(p);
    VfosPlaces();
    r := m;
    r := Put(r, p, Vfo, st);
    r := Put(r, p, VfoA, st);
    r := Put(r, p, VfoB, st);
    r := Put(r, p, Split, st);
    r := Put(r, p, DualWatch, st);
    r := Put(r, p, SubSMeter, st);
    r := Put(r, p, SelectedBand, st);
    r := Put(r, p, BreakIn, st);
  }

  lemma FrontEndPlaces()
    ensures Place(Tuner) == 22
    ensures Place(Standby) == 23
    ensures Place(Preamp) == 24
    ensures Place(AttenuatorDB) == 25
    ensures Place(RFGain) == 26
    ensures Place(Agc) == 27
    ensures Place(IPPlus) == 28
    ensures Place(DigiSel) == 29
    ensures Place(DigiSelShift) == 30
  {}

  method PutFrontEnd(m: Patch, p: Patch, ghost st: State) returns (r: Patch)
    requires Rendered(m, p, st, 22)
    ensures Rendered(r, p, st, 31)
  {
    hide *;
    MetersAre(p);
    FrontEndPlaces();
    r := m;
    r := Put(r, p, Tuner, st);
    r := Put(r, p, Standby, st);
    r := Put(r, p, Preamp, st);
    r := Put(r, p, AttenuatorDB, st);
    r := Put(r, p, RFGain, st);
    r := Put(r, p, Agc, st);
    r := Put(r, p, IPPlus, st);
    r := Put(r, p, DigiSel, st);
    r := Put(r, p, DigiSelShift, st);
  }

  lemma NoisePlaces()
    ensures Place(NoiseBlanker) == 31
    ensures Place(NBLevel) == 32
    ensures Place(NoiseReduction) == 33
    ensures Place(NRLevel) == 34
    ensures Place(Notch) == 35
    ensures Place(NotchFreq) == 36
  {}

  lemma AntennaPlaces()
    ensures Place(NotchWidth) == 37
    ensures Place(AutoNotch) == 38
    ensures Place(Antenna) == 39
    ensures Place(RXAntenna) == 40
  {}

  method PutNoise(m: Patch, p: Patch, ghost st: State) returns (r: Patch)
    requires Rendered(m, p, st, 31)
    ensures Rendered(r, p, st, 41)
  {
    hide *;
    MetersAre(p);
    NoisePlaces();
    AntennaPlaces();
    r := m;
    r := Put(r, p, NoiseBlanker, st);
    r := Put(r, p, NBLevel, st);
    r := Put(r, p, NoiseReduction, st);
    r := Put(r, p, NRLevel, st);
    r := Put(r, p, Notch, st);
    r := Put(r, p, NotchFreq, st);
    r := Put(r, p, NotchWidth, st);
    r := Put(r, p, AutoNotch, st);
    r := Put(r, p, Antenna, st);
    r := Put(r, p, RXAntenna, st);
  }

  lemma AudioPlaces()
    ensures Place(TXAudioGain) == 41
    ensures Place(Proc) == 42
    ensures Place(ProcLevel) == 43
  {}

  method PutAudio(m: Patch, p: Patch, ghost st: State) returns (r: Patch)
    requires Rendered(m, p, st, 41)
    ensures Rendered(r, p, st, 44)
  {
    hide *;
    MetersAre(p);
    AudioPlaces();
    r := m;
    r := Put(r, p, TXAudioGain, st);
    r := Put(r, p, Proc, st);
    r := Put(r, p, ProcLevel, st);
  }

  /** changedFields: the message names exactly what ChangedFields names, with the same values. */
  method ChangedObject(p: Patch, st: State) returns (m: Patch)
    ensures m == ChangedFields(p, st)
  {
    NothingRendered(p, st);
    hide *;
    m := map[];
    m := PutTuning(m, p, st);
    m := PutVfos(m, p, st);
    m := PutMeters(m, p, st);
    m := PutFrontEnd(m, p, st);
    m := PutNoise(m, p, st);
    m := PutAudio(m, p, st);
    AllRendered(m, p, st);
  }

  lemma NothingRendered(p: Patch, st: State)
    ensures Rendered(map[], p, st, 0)
  {}

  lemma AllRendered(m: Patch, p: Patch, st: State)
    requires Rendered(m, p, st, 44)
    ensures m == ChangedFields(p, st)
  {
    hide Place, IsMeter, MetersGoOut;
    var c := ChangedFields(p, st);
    forall f: Field ensures (f in m <==> f in c) && (f in m ==> m[f] == c[f]) {
      assert Place(f) < 44;
    }
  }
}

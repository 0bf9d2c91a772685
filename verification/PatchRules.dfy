/** What a multi-field change may ask of a radio, and the power clamp (internal/rig/session.go).
    Numbers the source keeps in floating point are real here. */
module PatchRules {
  import opened Basics

  datatype Vfo = VfoCurrent | VfoA | VfoB | VfoMain | VfoSub
  datatype Agc = AgcOff | AgcFast | AgcMid | AgcSlow | AgcAuto | AgcAutoFast | AgcAutoMid | AgcAutoSlow
  datatype Tuner = TunerOff | TunerOn | TunerTuning

  // A power as the client gives it: in percent, in watts, or wrongly both or neither.
  datatype PowerSet = PowerSet(watts: Option<real>, pct: Option<real>)

  datatype Request = Request(
    vfo: Vfo,
    mode: Option<string>, dataMode: Option<bool>, frequency: Option<nat>,
    filterSlot: Option<int>, filterWidthHz: Option<int>, power: Option<PowerSet>, ptt: Option<bool>,
    split: Option<bool>, dualWatch: Option<bool>, vfoMode: Option<bool>, breakIn: Option<string>,
    tuner: Option<Tuner>, tunerTune: Option<bool>, exchangeBands: Option<bool>,
    preamp: Option<int>, attenuatorDb: Option<int>, rfGain: Option<real>, agc: Option<Agc>,
    ipPlus: Option<bool>, digiSel: Option<bool>, digiSelShift: Option<real>,
    noiseBlanker: Option<int>, nbLevel: Option<real>, noiseReduction: Option<int>, nrLevel: Option<real>,
    notch: Option<bool>, notchFreq: Option<real>, notchWidth: Option<string>, autoNotch: Option<bool>,
    antenna: Option<int>, rxAntenna: Option<bool>,
    txAudioGain: Option<real>, proc: Option<bool>, procLevel: Option<real>)

  datatype Caps = Caps(
    modes: seq<string>, vfos: seq<Vfo>, filterSlots: int, filterWidth: bool,
    pttControl: bool, powerControl: bool, powerWattAccurate: bool, maxPowerW: real,
    breakInControl: bool, tunerControl: bool, tunerTune: bool, bandExchange: bool, split: bool, dualWatch: bool,
    preampLevels: int, attenuatorDb: seq<int>, rfGainControl: bool, agcSettings: seq<Agc>,
    ipPlusControl: bool, digiSelControl: bool, digiSelShiftControl: bool,
    noiseBlankerLevels: int, nbLevelControl: bool, noiseReductionLevels: int, nrLevelControl: bool,
    notchControl: bool, notchFreqControl: bool, notchWidths: seq<string>, autoNotchControl: bool, notchExclusive: bool,
    antennas: int, rxAntennaControl: bool,
    txAudioGainControl: bool, procControl: bool, procLevelControl: bool)

  // Which optional interfaces the backend implements.
  datatype Backend = Backend(
    dualVfo: bool, vfoModeSelector: bool, bandExchanger: bool, frontEnd: bool, preselect: bool,
    noise: bool, antenna: bool, txAudio: bool, breakIn: bool, tuner: bool)

  datatype Band = Band(lowHz: nat, highHz: nat)

  datatype Limits = Limits(maxPowerPct: real, maxPowerW: real, bands: seq<Band>)

  // Everything a request is judged by; hz is the frequency the radio stands on.
  datatype Station = Station(caps: Caps, backend: Backend, limits: Limits, hz: nat)

  datatype Refusal = Unsupported | OutOfBand | BadPower

  // ---- limits ----

  predicate AllowsFrequency(l: Limits, hz: nat) {
    l.bands == [] || exists i :: 0 <= i < |l.bands| && l.bands[i].lowHz <= hz <= l.bands[i].highHz
  }

  method CheckFrequency(l: Limits, hz: nat) returns (ok: bool)
    ensures ok <==> AllowsFrequency(l, hz)
  {
    if |l.bands| == 0 { return true; }
    for i := 0 to |l.bands|
      invariant forall k :: 0 <= k < i ==> !(l.bands[k].lowHz <= hz <= l.bands[k].highHz)
    {
      if hz >= l.bands[i].lowHz && hz <= l.bands[i].highHz { return true; }
    }
    ok := false;
  }

  function MinR(a: real, b: real): real { if a < b then a else b }
  function MaxR(a: real, b: real): real { if a > b then a else b }

  /** The watt limit in percent of full scale, and the percentage limit in watts. */
  function WattLimit(l: Limits, full: real): real
    requires full > 0.0
  {
    l.maxPowerW / full * 100.0
  }

  function PctLimit(l: Limits, full: real): real { l.maxPowerPct / 100.0 * full }

  function ClampPct(v: real, l: Limits, full: real): real {
    var a := MinR(MaxR(v, 0.0), 100.0);
    var b := if l.maxPowerPct > 0.0 then MinR(a, l.maxPowerPct) else a;
    if l.maxPowerW > 0.0 && full > 0.0 then MinR(b, WattLimit(l, full)) else b
  }

  function ClampWatts(v: real, l: Limits, full: real): real {
    var a := MaxR(v, 0.0);
    var b := if l.maxPowerW > 0.0 then MinR(a, l.maxPowerW) else a;
    if l.maxPowerPct > 0.0 && full > 0.0 then MinR(b, PctLimit(l, full)) else b
  }

  function ClampPower(p: PowerSet, caps: Caps, l: Limits): Result<PowerSet, Refusal> {
    if p.watts.None? == p.pct.None? then Err(BadPower)
    else if p.pct.Some? then Ok(PowerSet(None, Some(ClampPct(p.pct.value, l, caps.maxPowerW))))
    else if !caps.powerWattAccurate && caps.maxPowerW <= 0.0 then Err(Unsupported)
    else Ok(PowerSet(Some(ClampWatts(p.watts.value, l, caps.maxPowerW)), None))
  }

  /** A power in watts on a radio of known full scale, in percent of it. */
  function AsPct(p: PowerSet, full: real): real
    requires full > 0.0 && (p.pct.Some? || p.watts.Some?)
  {
    if p.pct.Some? then p.pct.value else p.watts.value / full * 100.0
  }

  /** Within one limit: a percentage limit binds percentages and, given a scale, watts; and the
      other way round. */
  predicate WithinLimits(p: PowerSet, l: Limits, full: real) {
    && (p.pct.Some? ==> 0.0 <= p.pct.value <= 100.0)
    && (p.watts.Some? ==> 0.0 <= p.watts.value)
    && (l.maxPowerPct > 0.0 && p.pct.Some? ==> p.pct.value <= l.maxPowerPct)
    && (l.maxPowerW > 0.0 && p.watts.Some? ==> p.watts.value <= l.maxPowerW)
    && (full > 0.0 && (p.pct.Some? || p.watts.Some?) ==>
         && (l.maxPowerPct > 0.0 ==> AsPct(p, full) <= l.maxPowerPct)
         && (l.maxPowerW > 0.0 ==> AsPct(p, full) * full <= l.maxPowerW * 100.0))
  }

  lemma DivMul(x: real, y: real)
    requires y > 0.0
    ensures x / y * y == x
  {}

  lemma ScaleLaw(v: real, limit: real, full: real)
    requires full > 0.0
    ensures v <= limit / full * 100.0 <==> v * full <= limit * 100.0
    ensures v <= limit / 100.0 * full <==> v / full * 100.0 <= limit
  {
    assert v / full * 100.0 <= limit <==> v / full <= limit / 100.0;
    var q := limit / full;
    DivMul(limit, full);
    assert q * 100.0 * full == limit * 100.0;
    ScaleOrder(v, q * 100.0, full);
    var r := v / full;
    DivMul(v, full);
    ScaleOrder(r, limit / 100.0, full);
  }

  lemma ScaleOrder(a: real, b: real, k: real)
    requires k > 0.0
    ensures a <= b <==> a * k <= b * k
  {
    if a <= b { assert (b - a) * k >= 0.0; } else { assert (a - b) * k > 0.0; }
  }

  /** Whatever goes out obeys both limits wherever there is a scale to compare by, is what was
      asked for if that already did, and clamping it again changes nothing. */
  lemma ClampedWithinLimits(p: PowerSet, caps: Caps, l: Limits)
    ensures var r := ClampPower(p, caps, l);
      && (r.Err? <==> (p.watts.None? == p.pct.None?) || (p.pct.None? && !caps.powerWattAccurate && caps.maxPowerW <= 0.0))
      && (r.Ok? ==> (r.value.pct.Some? <==> p.pct.Some?) && (r.value.watts.Some? <==> p.watts.Some?))
      && (r.Ok? ==> WithinLimits(r.value, l, caps.maxPowerW))
      && (r.Ok? && WithinLimits(p, l, caps.maxPowerW) ==> r.value == p)
      && (r.Ok? ==> ClampPower(r.value, caps, l) == r)
  {
    hide ClampPct, ClampWatts, WithinLimits;
    var r := ClampPower(p, caps, l);
    if r.Ok? {
      var full := caps.maxPowerW;
      if p.pct.Some? {
        PctWithin(p.pct.value, l, full);
        PctKept(p.pct.value, l, full);
        PctKept(r.value.pct.value, l, full);
      } else {
        WattsWithin(p.watts.value, l, full);
        WattsKept(p.watts.value, l, full);
        WattsKept(r.value.watts.value, l, full);
      }
    }
  }

  lemma PctWithin(v: real, l: Limits, full: real)
    ensures WithinLimits(PowerSet(None, Some(ClampPct(v, l, full))), l, full)
  {
    if full > 0.0 { ScaleLaw(ClampPct(v, l, full), l.maxPowerW, full); Share(l.maxPowerW, full); }
  }

  lemma PctKept(v: real, l: Limits, full: real)
    ensures WithinLimits(PowerSet(None, Some(v)), l, full) ==> ClampPct(v, l, full) == v
  {
    if full > 0.0 { ScaleLaw(v, l.maxPowerW, full); }
  }

  lemma WattsWithin(v: real, l: Limits, full: real)
    ensures WithinLimits(PowerSet(Some(ClampWatts(v, l, full)), None), l, full)
  {
    if full > 0.0 {
      var w := ClampWatts(v, l, full);
      ScaleLaw(w, l.maxPowerPct, full);
      Share(l.maxPowerPct, full);
      DivMul(w, full);
    }
  }

  lemma WattsKept(v: real, l: Limits, full: real)
    ensures WithinLimits(PowerSet(Some(v), None), l, full) ==> ClampWatts(v, l, full) == v
  {
    if full > 0.0 { ScaleLaw(v, l.maxPowerPct, full); }
  }

  /** The clamp takes no more than it has to: what goes out is the largest power within the limits
      that is no more than was asked for, or the smallest there is if even that was less. Which
      refusal it is tells a malformed power from a watt figure the radio cannot scale. */
  lemma ClampedIsMost(p: PowerSet, caps: Caps, l: Limits, v: real)
    ensures var r := ClampPower(p, caps, l);
      && (r.Err? ==> r.error == if p.watts.None? == p.pct.None? then BadPower else Unsupported)
      && (r.Ok? && p.pct.Some? ==>
            && r.value.pct.value <= MaxR(p.pct.value, 0.0)
            && (WithinLimits(PowerSet(None, Some(v)), l, caps.maxPowerW) && v <= p.pct.value ==> v <= r.value.pct.value))
      && (r.Ok? && p.watts.Some? ==>
            && r.value.watts.value <= MaxR(p.watts.value, 0.0)
            && (WithinLimits(PowerSet(Some(v), None), l, caps.maxPowerW) && v <= p.watts.value ==> v <= r.value.watts.value))
  {
    hide ClampPct, ClampWatts, WithinLimits;
    if p.pct.Some? { PctMost(p.pct.value, l, caps.maxPowerW, v); }
    if p.watts.Some? { WattsMost(p.watts.value, l, caps.maxPowerW, v); }
  }

  lemma PctMost(asked: real, l: Limits, full: real, v: real)
    ensures ClampPct(asked, l, full) <= MaxR(asked, 0.0)
    ensures WithinLimits(PowerSet(None, Some(v)), l, full) && v <= asked ==> v <= ClampPct(asked, l, full)
  {
    if full > 0.0 { ScaleLaw(v, l.maxPowerW, full); }
    hide WattLimit;
    assert full > 0.0 ==> WattLimit(l, full) == l.maxPowerW / full * 100.0 by { WattLimitIs(l, full); }
  }

  lemma WattLimitIs(l: Limits, full: real)
    ensures full > 0.0 ==> WattLimit(l, full) == l.maxPowerW / full * 100.0
    ensures PctLimit(l, full) == l.maxPowerPct / 100.0 * full
  {}

  lemma WattsMost(asked: real, l: Limits, full: real, v: real)
    ensures ClampWatts(asked, l, full) <= MaxR(asked, 0.0)
    ensures WithinLimits(PowerSet(Some(v), None), l, full) && v <= asked ==> v <= ClampWatts(asked, l, full)
  {
    WattLimitIs(l, full);
    hide PctLimit;
    if full > 0.0 { ScaleLaw(v, l.maxPowerPct, full); }
  }

  lemma Share(limit: real, full: real)
    requires full > 0.0
    ensures limit > 0.0 ==> limit / full * 100.0 > 0.0 && limit / 100.0 * full > 0.0
  {
    DivMul(limit, full);
    ScaleOrder(limit / full, 0.0, full);
    ScaleOrder(limit / 100.0, 0.0, full);
  }

  method Clamp(p: PowerSet, caps: Caps, l: Limits) returns (r: Result<PowerSet, Refusal>)
    ensures r == ClampPower(p, caps, l)
  {
    hide WattLimit, PctLimit, MinR, MaxR;
    if p.watts.None? && p.pct.None? { return Err(BadPower); }
    if p.watts.Some? && p.pct.Some? { return Err(BadPower); }
    if p.pct.Some? {
      var v := MinR(MaxR(p.pct.value, 0.0), 100.0);
      if l.maxPowerPct > 0.0 { v := MinR(v, l.maxPowerPct); }
      if l.maxPowerW > 0.0 && caps.maxPowerW > 0.0 { v := MinR(v, WattLimit(l, caps.maxPowerW)); }
      return Ok(PowerSet(None, Some(v)));
    }
    if !caps.powerWattAccurate && caps.maxPowerW <= 0.0 { return Err(Unsupported); }
    var v := MaxR(p.watts.value, 0.0);
    if l.maxPowerW > 0.0 { v := MinR(v, l.maxPowerW); }
    if l.maxPowerPct > 0.0 && caps.maxPowerW > 0.0 { v := MinR(v, PctLimit(l, caps.maxPowerW)); }
    r := Ok(PowerSet(Some(v), None));
  }

  // ---- the rules, field by field ----

  predicate NamesVfo(r: Request) { r.vfo != VfoCurrent }

  predicate FrontEndRequested(r: Request) {
    r.preamp.Some? || r.attenuatorDb.Some? || r.rfGain.Some? || r.agc.Some? || r.ipPlus.Some? || r.digiSel.Some? || r.digiSelShift.Some?
  }

  predicate NoiseRequested(r: Request) {
    || r.noiseBlanker.Some? || r.nbLevel.Some? || r.noiseReduction.Some? || r.nrLevel.Some?
    || r.notch.Some? || r.notchFreq.Some? || r.notchWidth.Some? || r.autoNotch.Some?
  }

  predicate TxAudioRequested(r: Request) { r.txAudioGain.Some? || r.proc.Some? || r.procLevel.Some? }

  predicate Empty(r: Request) {
    && r.mode.None? && r.dataMode.None? && r.frequency.None? && r.filterSlot.None? && r.filterWidthHz.None?
    && r.power.None? && r.ptt.None? && r.split.None? && r.dualWatch.None? && r.vfoMode.None? && r.breakIn.None?
    && r.tuner.None? && r.tunerTune.None? && r.exchangeBands.None?
    && !FrontEndRequested(r) && !NoiseRequested(r) && r.antenna.None? && r.rxAntenna.None? && !TxAudioRequested(r)
  }

  predicate Percent(p: Option<real>) { p.Some? ==> 0.0 <= p.value <= 100.0 }

  predicate Level(n: Option<int>, top: int) { n.Some? ==> top != 0 && 0 <= n.value <= top }

  predicate VfoReachable(r: Request, s: Station) {
    (r.vfo == VfoCurrent || r.vfo in s.caps.vfos) && (NamesVfo(r) ==> s.backend.dualVfo)
  }

  predicate TuningLegal(r: Request, s: Station) {
    && (r.mode.Some? && s.caps.modes != [] ==> r.mode.value in s.caps.modes)
    && (r.frequency.Some? ==> AllowsFrequency(s.limits, r.frequency.value))
    && (r.filterWidthHz.Some? ==> s.caps.filterWidth)
    && (r.filterSlot.Some? ==> 1 <= r.filterSlot.value <= s.caps.filterSlots)
    && (r.vfoMode.Some? ==> r.vfoMode.value && s.backend.vfoModeSelector)
    && (r.exchangeBands.Some? ==> r.exchangeBands.value && s.caps.bandExchange && s.backend.bandExchanger)
    && (r.split.Some? ==> s.caps.split)
    && (r.dualWatch.Some? ==> s.caps.dualWatch)
  }

  predicate TransmitLegal(r: Request, s: Station) {
    && (r.breakIn.Some? ==> s.caps.breakInControl)
    && (r.ptt.Some? ==> s.caps.pttControl)
    && (r.power.Some? ==> s.caps.powerControl)
    && (r.tuner.Some? ==> !r.tuner.value.TunerTuning? && s.caps.tunerControl)
    && (r.tunerTune.Some? ==> r.tunerTune.value && s.caps.tunerTune && (s.hz > 0 ==> AllowsFrequency(s.limits, s.hz)))
  }

  predicate Settable(a: Agc) { a.AgcOff? || a.AgcFast? || a.AgcMid? || a.AgcSlow? || a.AgcAuto? }

  predicate FrontEndLegal(r: Request, s: Station) {
    && (r.preamp.Some? || r.attenuatorDb.Some? || r.rfGain.Some? || r.agc.Some? ==> s.backend.frontEnd)
    && (r.ipPlus.Some? || r.digiSel.Some? || r.digiSelShift.Some? ==> s.backend.preselect)
    && Level(r.preamp, s.caps.preampLevels)
    && (r.attenuatorDb.Some? ==> s.caps.attenuatorDb != [] && (r.attenuatorDb.value == 0 || r.attenuatorDb.value in s.caps.attenuatorDb))
    && (r.rfGain.Some? ==> s.caps.rfGainControl) && Percent(r.rfGain)
    && (r.agc.Some? ==> Settable(r.agc.value) && r.agc.value in s.caps.agcSettings)
    && (r.ipPlus.Some? ==> s.caps.ipPlusControl)
    && (r.digiSel.Some? ==> s.caps.digiSelControl)
    && (r.digiSelShift.Some? ==> s.caps.digiSelShiftControl) && Percent(r.digiSelShift)
  }

  predicate NoiseLegal(r: Request, s: Station) {
    && (NoiseRequested(r) ==> s.backend.noise)
    && Level(r.noiseBlanker, s.caps.noiseBlankerLevels) && (r.nbLevel.Some? ==> s.caps.nbLevelControl) && Percent(r.nbLevel)
    && Level(r.noiseReduction, s.caps.noiseReductionLevels) && (r.nrLevel.Some? ==> s.caps.nrLevelControl) && Percent(r.nrLevel)
    && (r.notch.Some? ==> s.caps.notchControl) && (r.autoNotch.Some? ==> s.caps.autoNotchControl)
    && !(s.caps.notchExclusive && r.notch == Some(true) && r.autoNotch == Some(true))
    && (r.notchFreq.Some? ==> s.caps.notchFreqControl) && Percent(r.notchFreq)
    && (r.notchWidth.Some? ==> r.notchWidth.value in s.caps.notchWidths)
    && (r.antenna.Some? || r.rxAntenna.Some? ==> s.backend.antenna)
    && (r.antenna.Some? ==> 1 <= r.antenna.value <= s.caps.antennas)
    && (r.rxAntenna.Some? ==> s.caps.rxAntennaControl)
  }

  predicate TxAudioLegal(r: Request, s: Station) {
    && (TxAudioRequested(r) ==> s.backend.txAudio)
    && (r.txAudioGain.Some? ==> s.caps.txAudioGainControl) && Percent(r.txAudioGain)
    && (r.proc.Some? ==> s.caps.procControl)
    && (r.procLevel.Some? ==> s.caps.procLevelControl) && Percent(r.procLevel)
  }

  /** Everything the station's own rules ask. */
  predicate Legal(r: Request, s: Station) {
    && VfoReachable(r, s) && TuningLegal(r, s) && TransmitLegal(r, s)
    && FrontEndLegal(r, s) && NoiseLegal(r, s) && TxAudioLegal(r, s)
    && (r.power.Some? ==> ClampPower(r.power.value, s.caps, s.limits).Ok?)
  }

  // ---- the checks, in the source's order ----

  method ValidateTuning(r: Request, s: Station) returns (e: Option<Refusal>)
    ensures e.None? <==> TuningLegal(r, s) && TransmitLegal(r, s)
    ensures e == Some(OutOfBand) ==>
      || (r.frequency.Some? && !AllowsFrequency(s.limits, r.frequency.value))
      || (r.tunerTune.Some? && s.hz > 0 && !AllowsFrequency(s.limits, s.hz))
    ensures e != Some(BadPower)
  {
    hide AllowsFrequency;
    if r.mode.Some? && |s.caps.modes| > 0 && r.mode.value !in s.caps.modes { return Some(Unsupported); }
    if r.frequency.Some? {
      var ok := CheckFrequency(s.limits, r.frequency.value);
      if !ok { return Some(OutOfBand); }
    }
    if r.filterWidthHz.Some? && !s.caps.filterWidth { return Some(Unsupported); }
    if r.filterSlot.Some? {
      var n := s.caps.filterSlots;
      if n <= 0 || r.filterSlot.value < 1 || r.filterSlot.value > n { return Some(Unsupported); }
    }
    if r.breakIn.Some? && !s.caps.breakInControl { return Some(Unsupported); }
    if r.ptt.Some? && !s.caps.pttControl { return Some(Unsupported); }
    if r.power.Some? && !s.caps.powerControl { return Some(Unsupported); }
    if r.tuner.Some? {
      if r.tuner.value != TunerOff && r.tuner.value != TunerOn { return Some(Unsupported); }
      if !s.caps.tunerControl { return Some(Unsupported); }
    }
    if r.tunerTune.Some? {
      if !r.tunerTune.value { return Some(Unsupported); }
      if !s.caps.tunerTune { return Some(Unsupported); }
      if s.hz > 0 {
        var ok := CheckFrequency(s.limits, s.hz);
        if !ok { return Some(OutOfBand); }
      }
    }
    if r.vfoMode.Some? {
      if !r.vfoMode.value { return Some(Unsupported); }
      if !s.backend.vfoModeSelector { return Some(Unsupported); }
    }
    if r.exchangeBands.Some? {
      if !r.exchangeBands.value { return Some(Unsupported); }
      if !s.caps.bandExchange || !s.backend.bandExchanger { return Some(Unsupported); }
    }
    if r.split.Some? && !s.caps.split { return Some(Unsupported); }
    if r.dualWatch.Some? && !s.caps.dualWatch { return Some(Unsupported); }
    e := None;
  }

  method ValidateFrontEnd(r: Request, s: Station) returns (e: Option<Refusal>)
    ensures e.None? <==> FrontEndLegal(r, s)
    ensures e.Some? ==> e.value == Unsupported
  {
    if !FrontEndRequested(r) { return None; }
    if r.preamp.Some? || r.attenuatorDb.Some? || r.rfGain.Some? || r.agc.Some? {
      if !s.backend.frontEnd { return Some(Unsupported); }
    }
    if r.ipPlus.Some? || r.digiSel.Some? || r.digiSelShift.Some? {
      if !s.backend.preselect { return Some(Unsupported); }
    }
    if r.preamp.Some? {
      if s.caps.preampLevels == 0 { return Some(Unsupported); }
      if r.preamp.value < 0 || r.preamp.value > s.caps.preampLevels { return Some(Unsupported); }
    }
    if r.attenuatorDb.Some? {
      if |s.caps.attenuatorDb| == 0 { return Some(Unsupported); }
      if r.attenuatorDb.value != 0 && r.attenuatorDb.value !in s.caps.attenuatorDb { return Some(Unsupported); }
    }
    if r.rfGain.Some? {
      if !s.caps.rfGainControl { return Some(Unsupported); }
      if r.rfGain.value < 0.0 || r.rfGain.value > 100.0 { return Some(Unsupported); }
    }
    if r.agc.Some? {
      if |s.caps.agcSettings| == 0 { return Some(Unsupported); }
      if !Settable(r.agc.value) { return Some(Unsupported); }
      if r.agc.value !in s.caps.agcSettings { return Some(Unsupported); }
    }
    if r.ipPlus.Some? && !s.caps.ipPlusControl { return Some(Unsupported); }
    if r.digiSel.Some? && !s.caps.digiSelControl { return Some(Unsupported); }
    if r.digiSelShift.Some? {
      if !s.caps.digiSelShiftControl { return Some(Unsupported); }
      if r.digiSelShift.value < 0.0 || r.digiSelShift.value > 100.0 { return Some(Unsupported); }
    }
    e := None;
  }

  method ValidateLevelPair(sel: Option<int>, level: Option<real>, levels: int, hasLevel: bool) returns (e: Option<Refusal>)
    ensures e.None? <==> Level(sel, levels) && (level.Some? ==> hasLevel) && Percent(level)
    ensures e.Some? ==> e.value == Unsupported
  {
    if sel.Some? {
      if levels == 0 { return Some(Unsupported); }
      if sel.value < 0 || sel.value > levels { return Some(Unsupported); }
    }
    if level.Some? {
      if !hasLevel { return Some(Unsupported); }
      if level.value < 0.0 || level.value > 100.0 { return Some(Unsupported); }
    }
    e := None;
  }

  method ValidateNoise(r: Request, s: Station) returns (e: Option<Refusal>)
    ensures e.None? <==> NoiseLegal(r, s)
    ensures e.Some? ==> e.value == Unsupported
  {
    if NoiseRequested(r) && !s.backend.noise { return Some(Unsupported); }
    e := ValidateLevelPair(r.noiseBlanker, r.nbLevel, s.caps.noiseBlankerLevels, s.caps.nbLevelControl);
    if e.Some? { return; }
    e := ValidateLevelPair(r.noiseReduction, r.nrLevel, s.caps.noiseReductionLevels, s.caps.nrLevelControl);
    if e.Some? { return; }
    if r.notch.Some? && !s.caps.notchControl { return Some(Unsupported); }
    if r.autoNotch.Some? && !s.caps.autoNotchControl { return Some(Unsupported); }
    if s.caps.notchExclusive && r.notch.Some? && r.autoNotch.Some? && r.notch.value && r.autoNotch.value {
      return Some(Unsupported);
    }
    if r.notchFreq.Some? {
      if !s.caps.notchFreqControl { return Some(Unsupported); }
      if r.notchFreq.value < 0.0 || r.notchFreq.value > 100.0 { return Some(Unsupported); }
    }
    if r.notchWidth.Some? {
      if |s.caps.notchWidths| == 0 { return Some(Unsupported); }
      if r.notchWidth.value !in s.caps.notchWidths { return Some(Unsupported); }
    }
    if r.antenna.Some? || r.rxAntenna.Some? {
      if !s.backend.antenna { return Some(Unsupported); }
    }
    if r.antenna.Some? {
      if s.caps.antennas == 0 { return Some(Unsupported); }
      if r.antenna.value < 1 || r.antenna.value > s.caps.antennas { return Some(Unsupported); }
    }
    if r.rxAntenna.Some? && !s.caps.rxAntennaControl { return Some(Unsupported); }
    e := None;
  }

  method ValidateTxAudio(r: Request, s: Station) returns (e: Option<Refusal>)
    ensures e.None? <==> TxAudioLegal(r, s)
    ensures e.Some? ==> e.value == Unsupported
  {
    if !TxAudioRequested(r) { return None; }
    if !s.backend.txAudio { return Some(Unsupported); }
    if r.txAudioGain.Some? {
      if !s.caps.txAudioGainControl { return Some(Unsupported); }
      if r.txAudioGain.value < 0.0 || r.txAudioGain.value > 100.0 { return Some(Unsupported); }
    }
    if r.proc.Some? && !s.caps.procControl { return Some(Unsupported); }
    if r.procLevel.Some? {
      if !s.caps.procLevelControl { return Some(Unsupported); }
      if r.procLevel.value < 0.0 || r.procLevel.value > 100.0 { return Some(Unsupported); }
    }
    e := None;
  }

  /** The whole judgement after the VFO check, and the power that may go out. */
  method Validate(r: Request, s: Station) returns (v: Result<PowerSet, Refusal>)
    requires VfoReachable(r, s)
    ensures v.Ok? <==> Legal(r, s)
    ensures v.Ok? && r.power.Some? ==> Ok(v.value) == ClampPower(r.power.value, s.caps, s.limits)
  {
    hide TuningLegal, TransmitLegal, FrontEndLegal, NoiseLegal, TxAudioLegal, VfoReachable, ClampPower;
    var e := ValidateTuning(r, s);
    if e.Some? { return Err(e.value); }
    e := ValidateFrontEnd(r, s);
    if e.Some? { return Err(e.value); }
    e := ValidateNoise(r, s);
    if e.Some? { return Err(e.value); }
    e := ValidateTxAudio(r, s);
    if e.Some? { return Err(e.value); }
    if r.power.Some? {
      v := Clamp(r.power.value, s.caps, s.limits);
      return;
    }
    v := Ok(PowerSet(None, None));
  }
}

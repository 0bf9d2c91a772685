/** What a multi-field change does to the radio, said field by field of the request
    (internal/rig/session.go). */
module PatchMeaning {
  import opened Basics
  import opened PatchRules
  import opened PatchTransaction

  // ---- each setting named, with the request's own value ----

  predicate OpeningSays(r: Request, w: Write) {
    || (r.exchangeBands.Some? && w == Write(ExchangeBands, Nothing))
    || (r.vfoMode.Some? && w == Write(SelectVfoMode, VfoArg(r.vfo)))
  }

  /** Frequency, filter and power. A slot that goes out with a named VFO's mode does not go out
      again, and the power is the clamped one. */
  predicate TuningSays(r: Request, s: Station, w: Write) {
    || (r.frequency.Some? && r.vfo == VfoCurrent && w == Write(SetFrequency, Hz(VfoCurrent, r.frequency.value)))
    || (r.frequency.Some? && r.vfo != VfoCurrent && w == Write(SetVfoFrequency, Hz(r.vfo, r.frequency.value)))
    || (r.filterSlot.Some? && (r.vfo == VfoCurrent || (r.mode.None? && r.dataMode.None?)) && w == Write(SetFilterSlot, Num(r.filterSlot.value)))
    || (r.filterWidthHz.Some? && w == Write(SetFilterWidth, Num(r.filterWidthHz.value)))
    || (r.power.Some? && w.op.SetPower? && w.arg.PowerArg? && ClampPower(r.power.value, s.caps, s.limits) == Ok(w.arg.power))
  }

  predicate FrontEndSays(r: Request, w: Write) {
    || (r.attenuatorDb.Some? && w == Write(SetAttenuator, Num(r.attenuatorDb.value)))
    || (r.preamp.Some? && w == Write(SetPreamp, Num(r.preamp.value)))
    || (r.ipPlus.Some? && w == Write(SetIpPlus, Flag(r.ipPlus.value)))
    || (r.digiSel.Some? && w == Write(SetDigiSel, Flag(r.digiSel.value)))
    || (r.digiSelShift.Some? && w == Write(SetDigiSelShift, Real(r.digiSelShift.value)))
    || (r.agc.Some? && w == Write(SetAgc, AgcArg(r.agc.value)))
    || (r.rfGain.Some? && w == Write(SetRfGain, Real(r.rfGain.value)))
  }

  predicate NoiseSays(r: Request, w: Write) {
    || (r.noiseBlanker.Some? && w == Write(SetNoiseBlanker, Num(r.noiseBlanker.value)))
    || (r.nbLevel.Some? && w == Write(SetNbLevel, Real(r.nbLevel.value)))
    || (r.noiseReduction.Some? && w == Write(SetNoiseReduction, Num(r.noiseReduction.value)))
    || (r.nrLevel.Some? && w == Write(SetNrLevel, Real(r.nrLevel.value)))
    || (r.autoNotch.Some? && w == Write(SetAutoNotch, Flag(r.autoNotch.value)))
    || (r.notch.Some? && w == Write(SetNotch, Flag(r.notch.value)))
    || (r.notchWidth.Some? && w == Write(SetNotchWidth, Name(r.notchWidth.value)))
    || (r.notchFreq.Some? && w == Write(SetNotchFreq, Real(r.notchFreq.value)))
    || (r.antenna.Some? && w == Write(SetAntenna, Num(r.antenna.value)))
    || (r.rxAntenna.Some? && w == Write(SetRxAntenna, Flag(r.rxAntenna.value)))
  }

  predicate TxAudioSays(r: Request, w: Write) {
    || (r.txAudioGain.Some? && w == Write(SetTxAudioGain, Real(r.txAudioGain.value)))
    || (r.proc.Some? && w == Write(SetProc, Flag(r.proc.value)))
    || (r.procLevel.Some? && w == Write(SetProcLevel, Real(r.procLevel.value)))
  }

  predicate KeyingSays(r: Request, w: Write) {
    || (r.breakIn.Some? && w == Write(SetBreakIn, Name(r.breakIn.value)))
    || (r.split.Some? && w == Write(SetSplit, Flag(r.split.value)))
    || (r.dualWatch.Some? && w == Write(SetDualWatch, Flag(r.dualWatch.value)))
    || (r.tuner.Some? && w == Write(SetTuner, Flag(r.tuner.value == TunerOn)))
    || (r.ptt.Some? && w == Write(SetPtt, Flag(r.ptt.value)))
    || (r.tunerTune.Some? && w == Write(StartTune, Nothing))
  }

  /** The request names this setting, and this is what it names it to be. */
  predicate Names(r: Request, s: Station, w: Write) {
    OpeningSays(r, w) || TuningSays(r, s, w) || FrontEndSays(r, w) || NoiseSays(r, w) || TxAudioSays(r, w) || KeyingSays(r, w)
  }

  /** The cached mode a request fills itself in from: the named VFO's, or the operating one's. */
  function Was(r: Request, c: Cached): ModePair {
    match r.vfo
    case VfoCurrent => c.current
    case VfoA => c.a
    case VfoMain => c.a
    case VfoB => c.b
    case VfoSub => c.b
  }

  /** The mode write: the request's mode and data flag, and the cache's where it is silent; to a
      named VFO together with the filter slot, 0 where none is named. It may be tried again
      without the flag only where the flag was the cache's. */
  predicate ModeSays(r: Request, c: Cached, item: Item) {
    && (r.mode.Some? || r.dataMode.Some?)
    && var mode := if r.mode.Some? then r.mode.value else Was(r, c).mode;
       var data := if r.dataMode.Some? then r.dataMode.value else Was(r, c).data;
       if r.vfo == VfoCurrent then
         && item.w == Write(SetMode, ModeArg(mode, data))
         && item.retry == if r.dataMode.None? && data then Some(Write(SetMode, ModeArg(mode, false))) else None
       else
         var slot := if r.filterSlot.Some? then r.filterSlot.value else 0;
         && item.w == Write(SetVfoMode, VfoModeArg(r.vfo, mode, data, slot))
         && item.retry == if r.dataMode.None? && data then Some(Write(SetVfoMode, VfoModeArg(r.vfo, mode, false, slot))) else None
  }

  // ---- section by section ----

  lemma OpeningMeans(a: Ask, item: Item)
    ensures Some(item) in OpeningSlots(a) <==> item.retry.None? && OpeningSays(a.r, item.w)
  {}

  lemma NamedMeans(a: Ask, s: Station, item: Item)
    ensures Some(item) in NamedSlots(a) <==>
      a.r.vfo != VfoCurrent && (ModeSays(a.r, a.cached, item)
      || (a.r.frequency.Some? && item == Item(Write(SetVfoFrequency, Hz(a.r.vfo, a.r.frequency.value)), None)))
  {
    var slots := NamedSlots(a);
    assert Some(item) in slots <==> slots[0] == Some(item) || slots[1] == Some(item);
  }

  lemma TuningMeans(a: Ask, s: Station, item: Item)
    requires Legal(a.r, s) && a.power == PowerFor(a.r, s)
    ensures Some(item) in TuningSlots(a) <==>
      || (a.r.vfo == VfoCurrent && ModeSays(a.r, a.cached, item))
      || (item.retry.None? && TuningSays(a.r, s, item.w) && !item.w.op.SetVfoFrequency?)
  {
    PowerClamped(a, s);
    hide Legal, PowerFor, ClampPower;
    var slots := TuningSlots(a);
    assert Some(item) in slots <==>
      slots[0] == Some(item) || slots[1] == Some(item) || slots[2] == Some(item) || slots[3] == Some(item) || slots[4] == Some(item);
  }

  lemma PowerClamped(a: Ask, s: Station)
    requires Legal(a.r, s) && a.power == PowerFor(a.r, s)
    ensures a.r.power.Some? ==> ClampPower(a.r.power.value, s.caps, s.limits) == Ok(a.power)
  {
    hide ClampPower, VfoReachable, TuningLegal, TransmitLegal, FrontEndLegal, NoiseLegal, TxAudioLegal;
  }

  lemma FrontEndMeans(a: Ask, item: Item)
    ensures Some(item) in FrontEndSlots(a) <==> item.retry.None? && FrontEndSays(a.r, item.w)
  {
    hide OfNum, OfReal, OfFlag, OfAgc;
  }

  lemma NoiseMeans(a: Ask, item: Item)
    ensures Some(item) in NoiseSlots(a) <==> item.retry.None? && NoiseSays(a.r, item.w)
  {
    hide OfNum, OfReal, OfFlag, OfName;
  }

  lemma TxAudioMeans(a: Ask, item: Item)
    ensures Some(item) in TxAudioSlots(a) <==> item.retry.None? && TxAudioSays(a.r, item.w)
  {
    hide OfReal, OfFlag;
  }

  lemma KeyingMeans(a: Ask, item: Item)
    ensures Some(item) in KeyingSlots(a) <==> item.retry.None? && KeyingSays(a.r, item.w)
  {
    hide OfFlag, OfName;
  }

  // ---- the whole plan ----

  /** One item of what a request asks for: its mode write, or a setting it names. */
  predicate Means(a: Ask, s: Station, item: Item) {
    ModeSays(a.r, a.cached, item) || (item.retry.None? && Names(a.r, s, item.w))
  }

  /** The plan is exactly what the request says: every setting it names is there with the request's
      own value, and nothing is there that it does not name. */
  lemma PlanMeans(a: Ask, s: Station, item: Item)
    requires Legal(a.r, s) && a.power == PowerFor(a.r, s)
    ensures item in Items(Plan(a)) <==> Means(a, s, item)
  {
    PlanIs(a);
    ItemsAreSlots(Plan(a));
    OpeningMeans(a, item);
    NamedMeans(a, s, item);
    TuningMeans(a, s, item);
    FrontEndMeans(a, item);
    NoiseMeans(a, item);
    TxAudioMeans(a, item);
    KeyingMeans(a, item);
    hide *;
    assert Some(item) in Plan(a) <==>
      || Some(item) in OpeningSlots(a) || Some(item) in NamedSlots(a) || Some(item) in TuningSlots(a)
      || Some(item) in FrontEndSlots(a) || Some(item) in NoiseSlots(a) || Some(item) in TxAudioSlots(a) || Some(item) in KeyingSlots(a);
    PartsMean(a, s, item);
  }

  lemma PartsMean(a: Ask, s: Station, item: Item)
    ensures Means(a, s, item) <==>
      || (a.r.vfo != VfoCurrent && (ModeSays(a.r, a.cached, item)
           || (a.r.frequency.Some? && item == Item(Write(SetVfoFrequency, Hz(a.r.vfo, a.r.frequency.value)), None))))
      || (a.r.vfo == VfoCurrent && ModeSays(a.r, a.cached, item))
      || (item.retry.None? && TuningSays(a.r, s, item.w) && !item.w.op.SetVfoFrequency?)
      || (item.retry.None? && (OpeningSays(a.r, item.w) || FrontEndSays(a.r, item.w) || NoiseSays(a.r, item.w)
                               || TxAudioSays(a.r, item.w) || KeyingSays(a.r, item.w)))
  {
    hide OpeningSays, FrontEndSays, NoiseSays, TxAudioSays, KeyingSays, ModeSays, ClampPower;
  }

  // ---- what reaches the radio ----

  lemma {:induction false} WritesAre(gs: seq<Group>)
    ensures forall x :: x in Writes(gs) <==> exists i :: 0 <= i < |gs| && x in gs[i].sent
  {
    if gs != [] {
      var rest := Writes(gs[1..]);
      WritesAre(gs[1..]);
      forall x ensures x in Writes(gs) <==> exists i :: 0 <= i < |gs| && x in gs[i].sent {
        assert x in Writes(gs) <==> x in gs[0].sent || x in rest;
        if x in rest {
          var i :| 0 <= i < |gs[1..]| && x in gs[1..][i].sent;
          assert x in gs[i + 1].sent;
        }
        if i :| 0 <= i < |gs| && x in gs[i].sent {
          if i > 0 { assert gs[1..][i - 1] == gs[i]; }
        }
      }
    }
  }

  /** An item is done: its write was accepted, or refused and its second try accepted. */
  predicate DoneIn(item: Item, sent: seq<Sent>) {
    || Sent(item.w, Done) in sent
    || (item.retry.Some? && Sent(item.w, Refused) in sent && Sent(item.retry.value, Done) in sent)
  }

  /** A write is an item's, or what it falls back to. */
  predicate WriteOf(item: Item, w: Write) { w == item.w || item.retry == Some(w) }

  /** What a legal request does. Whatever reaches the radio is a setting the request names, at the
      value it names, or its mode write or that write's second try. And where nothing failed every
      setting it names has been accepted, and its mode, or the mode without a flag that was only
      the cache's. */
  lemma RequestDone(a: Ask, s: Station, answer: Answers, before: seq<Sent>, after: seq<Sent>, err: Reply)
    requires Legal(a.r, s) && a.power == PowerFor(a.r, s) && Did(Plan(a), answer, before, after, err)
    ensures before <= after
    ensures forall x :: x in after[|before|..] ==>
      Names(a.r, s, x.w) || exists item :: ModeSays(a.r, a.cached, item) && WriteOf(item, x.w)
    ensures err.Done? ==> forall w :: Names(a.r, s, w) ==> Sent(w, Done) in after[|before|..]
    ensures err.Done? ==> forall item :: ModeSays(a.r, a.cached, item) ==> DoneIn(item, after[|before|..])
  {
    var gs := Run(Plan(a), before, answer).0;
    RunLawful(Plan(a), before, answer);
    ItemsOfAt(gs);
    WritesAre(gs);
    assert after[|before|..] == Writes(gs);
    hide Legal, Plan, Items, Run, Writes, Names, ModeSays, Lawful, DoneIn;
    forall x | x in Writes(gs) ensures Names(a.r, s, x.w) || exists item :: ModeSays(a.r, a.cached, item) && WriteOf(item, x.w) {
      NothingElse(a, s, gs, err, x);
    }
    if err.Done? { AllDone(a, s, gs, err); }
  }

  lemma NothingElse(a: Ask, s: Station, gs: seq<Group>, err: Reply, x: Sent)
    requires Legal(a.r, s) && a.power == PowerFor(a.r, s) && Lawful(gs, Items(Plan(a)), err) && x in Writes(gs)
    ensures Names(a.r, s, x.w) || exists item :: ModeSays(a.r, a.cached, item) && WriteOf(item, x.w)
  {
    WritesAre(gs);
    ItemsOfAt(gs);
    hide Legal, Plan, Items, Writes, Names, ModeSays, Last;
    var i :| 0 <= i < |gs| && x in gs[i].sent;
    assert Items(Plan(a))[i] == gs[i].item && Shaped(gs[i]);
    PlanMeans(a, s, gs[i].item);
    assert WriteOf(gs[i].item, x.w);
  }

  lemma AllDone(a: Ask, s: Station, gs: seq<Group>, err: Reply)
    requires Legal(a.r, s) && a.power == PowerFor(a.r, s) && Lawful(gs, Items(Plan(a)), err) && err.Done?
    ensures forall w :: Names(a.r, s, w) ==> Sent(w, Done) in Writes(gs)
    ensures forall item :: ModeSays(a.r, a.cached, item) ==> DoneIn(item, Writes(gs))
  {
    hide Legal, Plan, Items, Writes, Names, ModeSays, Lawful;
    forall item | Means(a, s, item) ensures DoneIn(item, Writes(gs)) {
      PlanMeans(a, s, item);
      GroupDone(gs, Items(Plan(a)), item, err);
    }
    forall w | Names(a.r, s, w) ensures Sent(w, Done) in Writes(gs) {
      assert Means(a, s, Item(w, None));
    }
    assert forall item :: ModeSays(a.r, a.cached, item) ==> Means(a, s, item);
  }

  lemma GroupDone(gs: seq<Group>, plan: seq<Item>, item: Item, err: Reply)
    requires Lawful(gs, plan, err) && err.Done? && item in plan
    ensures DoneIn(item, Writes(gs))
  {
    WritesAre(gs);
    ItemsOfAt(gs);
    hide Writes;
    var i :| 0 <= i < |plan| && plan[i] == item;
    assert gs[i].item == item && Shaped(gs[i]) && Last(gs[i]).Done?;
    assert forall x :: x in gs[i].sent ==> x in Writes(gs);
    assert gs[i].sent[0] in gs[i].sent && gs[i].sent[|gs[i].sent| - 1] in gs[i].sent;
  }

  // ---- nothing asked, nothing done ----

  /** A request that counts as empty is exactly one whose plan is empty: none is answered without
      doing what it says. */
  lemma EmptyMeansNothing(a: Ask, s: Station)
    requires Legal(a.r, s) && a.power == PowerFor(a.r, s)
    ensures Empty(a.r) <==> Items(Plan(a)) == []
  {
    if Empty(a.r) {
      if Items(Plan(a)) != [] { EmptyAsksNothing(a, s, Items(Plan(a))[0]); }
    } else {
      var item := Asked(a, s);
      AskedMeans(a, s);
      hide *;
      PlanMeans(a, s, item);
      assert item in Items(Plan(a));
    }
  }

  lemma EmptyAsksNothing(a: Ask, s: Station, item: Item)
    requires Legal(a.r, s) && a.power == PowerFor(a.r, s) && Empty(a.r)
    ensures item !in Items(Plan(a))
  {
    PlanMeans(a, s, item);
    hide Plan, Items, Legal, PowerFor, ClampPower;
  }

  // Something a request that is not empty asks for.
  function Asked(a: Ask, s: Station): Item
    requires !Empty(a.r)
  {
    var r := a.r;
    if ModeAsked(r) then
      ModeItem(if NamesVfo(r) then Some((r.vfo, FilterSlot(r))) else None, Wanted(r, if NamesVfo(r) then VfoCached(a.cached, r.vfo) else a.cached.current), r.dataMode.Some?)
    else
      var w :=
        if r.frequency.Some? then Write(if NamesVfo(r) then SetVfoFrequency else SetFrequency, Hz(r.vfo, r.frequency.value))
        else if r.filterSlot.Some? then Write(SetFilterSlot, Num(r.filterSlot.value))
        else if r.filterWidthHz.Some? then Write(SetFilterWidth, Num(r.filterWidthHz.value))
        else if r.power.Some? then Write(SetPower, PowerArg(a.power))
        else if r.ptt.Some? then Write(SetPtt, Flag(r.ptt.value))
        else if r.split.Some? then Write(SetSplit, Flag(r.split.value))
        else if r.dualWatch.Some? then Write(SetDualWatch, Flag(r.dualWatch.value))
        else if r.vfoMode.Some? then Write(SelectVfoMode, VfoArg(r.vfo))
        else if r.breakIn.Some? then Write(SetBreakIn, Name(r.breakIn.value))
        else if r.tuner.Some? then Write(SetTuner, Flag(r.tuner.value == TunerOn))
        else if r.tunerTune.Some? then Write(StartTune, Nothing)
        else if r.exchangeBands.Some? then Write(ExchangeBands, Nothing)
        else AskedOfReceiver(r);
      Item(w, None)
  }

  function AskedOfReceiver(r: Request): Write {
    if r.preamp.Some? then Write(SetPreamp, Num(r.preamp.value))
    else if r.attenuatorDb.Some? then Write(SetAttenuator, Num(r.attenuatorDb.value))
    else if r.rfGain.Some? then Write(SetRfGain, Real(r.rfGain.value))
    else if r.agc.Some? then Write(SetAgc, AgcArg(r.agc.value))
    else if r.ipPlus.Some? then Write(SetIpPlus, Flag(r.ipPlus.value))
    else if r.digiSel.Some? then Write(SetDigiSel, Flag(r.digiSel.value))
    else if r.digiSelShift.Some? then Write(SetDigiSelShift, Real(r.digiSelShift.value))
    else if r.noiseBlanker.Some? then Write(SetNoiseBlanker, Num(r.noiseBlanker.value))
    else if r.nbLevel.Some? then Write(SetNbLevel, Real(r.nbLevel.value))
    else if r.noiseReduction.Some? then Write(SetNoiseReduction, Num(r.noiseReduction.value))
    else if r.nrLevel.Some? then Write(SetNrLevel, Real(r.nrLevel.value))
    else if r.notch.Some? then Write(SetNotch, Flag(r.notch.value))
    else if r.notchFreq.Some? then Write(SetNotchFreq, Real(r.notchFreq.value))
    else if r.notchWidth.Some? then Write(SetNotchWidth, Name(r.notchWidth.value))
    else if r.autoNotch.Some? then Write(SetAutoNotch, Flag(r.autoNotch.value))
    else if r.antenna.Some? then Write(SetAntenna, Num(r.antenna.value))
    else if r.rxAntenna.Some? then Write(SetRxAntenna, Flag(r.rxAntenna.value))
    else if r.txAudioGain.Some? then Write(SetTxAudioGain, Real(r.txAudioGain.value))
    else if r.proc.Some? then Write(SetProc, Flag(r.proc.value))
    else if r.procLevel.Some? then Write(SetProcLevel, Real(r.procLevel.value))
    else Write(StartTune, Nothing)
  }

  lemma AskedMeans(a: Ask, s: Station)
    requires Legal(a.r, s) && a.power == PowerFor(a.r, s) && !Empty(a.r)
    ensures Means(a, s, Asked(a, s))
  {
    PowerClamped(a, s);
    hide Legal, PowerFor, ClampPower;
  }

  /** Where the radio is known to stand out of band, no tuning cycle is started. */
  lemma TuneInBand(a: Ask, s: Station, item: Item)
    requires Legal(a.r, s) && a.power == PowerFor(a.r, s) && item in Items(Plan(a)) && item.w.op.StartTune?
    ensures s.hz > 0 ==> AllowsFrequency(s.limits, s.hz)
  {
    PlanMeans(a, s, item);
    hide Plan, Items, PowerFor, ClampPower, AllowsFrequency, FrontEndLegal, NoiseLegal, TxAudioLegal, TuningLegal;
  }

  // ---- nothing the radio cannot do ----

  predicate InPercent(x: real) { 0.0 <= x <= 100.0 }

  predicate TuningCapable(w: Write, s: Station) {
    && (w.op.ExchangeBands? ==> s.caps.bandExchange && s.backend.bandExchanger)
    && (w.op.SelectVfoMode? ==> s.backend.vfoModeSelector)
    && (w.op.SetVfoMode? || w.op.SetVfoFrequency? ==> s.backend.dualVfo)
    && (w.op.SetVfoFrequency? ==> w.arg.Hz? && w.arg.vfo in s.caps.vfos)
    && (w.op.SetVfoMode? ==> w.arg.VfoModeArg? && w.arg.vfo in s.caps.vfos && (w.arg.slot == 0 || 1 <= w.arg.slot <= s.caps.filterSlots))
    && (w.op.SetFilterSlot? ==> w.arg.Num? && 1 <= w.arg.n <= s.caps.filterSlots)
    && (w.op.SetFilterWidth? ==> s.caps.filterWidth)
    && (w.op.SetPower? ==> s.caps.powerControl)
  }

  /** The settings of the automatic gain a client may ask for; the others are what a radio reports. */
  predicate Plain(agc: Agc) { agc in {AgcOff, AgcFast, AgcMid, AgcSlow, AgcAuto} }

  predicate FrontEndCapable(w: Write, s: Station) {
    && (w.op.SetAttenuator? ==> s.backend.frontEnd && w.arg.Num? && (w.arg.n == 0 || w.arg.n in s.caps.attenuatorDb))
    && (w.op.SetPreamp? ==> s.backend.frontEnd && w.arg.Num? && 0 <= w.arg.n <= s.caps.preampLevels)
    && (w.op.SetIpPlus? ==> s.backend.preselect && s.caps.ipPlusControl)
    && (w.op.SetDigiSel? ==> s.backend.preselect && s.caps.digiSelControl)
    && (w.op.SetDigiSelShift? ==> s.backend.preselect && s.caps.digiSelShiftControl && w.arg.Real? && InPercent(w.arg.x))
    && (w.op.SetAgc? ==> s.backend.frontEnd && w.arg.AgcArg? && w.arg.agc in s.caps.agcSettings && Plain(w.arg.agc))
    && (w.op.SetRfGain? ==> s.backend.frontEnd && s.caps.rfGainControl && w.arg.Real? && InPercent(w.arg.x))
  }

  predicate NoiseCapable(w: Write, s: Station) {
    && (w.op.SetNoiseBlanker? ==> s.backend.noise && w.arg.Num? && 0 <= w.arg.n <= s.caps.noiseBlankerLevels)
    && (w.op.SetNbLevel? ==> s.backend.noise && s.caps.nbLevelControl && w.arg.Real? && InPercent(w.arg.x))
    && (w.op.SetNoiseReduction? ==> s.backend.noise && w.arg.Num? && 0 <= w.arg.n <= s.caps.noiseReductionLevels)
    && (w.op.SetNrLevel? ==> s.backend.noise && s.caps.nrLevelControl && w.arg.Real? && InPercent(w.arg.x))
    && (w.op.SetAutoNotch? ==> s.backend.noise && s.caps.autoNotchControl)
    && (w.op.SetNotch? ==> s.backend.noise && s.caps.notchControl)
    && (w.op.SetNotchWidth? ==> s.backend.noise && w.arg.Name? && w.arg.name in s.caps.notchWidths)
    && (w.op.SetNotchFreq? ==> s.backend.noise && s.caps.notchFreqControl && w.arg.Real? && InPercent(w.arg.x))
    && (w.op.SetAntenna? ==> s.backend.antenna && w.arg.Num? && 1 <= w.arg.n <= s.caps.antennas)
    && (w.op.SetRxAntenna? ==> s.backend.antenna && s.caps.rxAntennaControl)
  }

  predicate TxAudioCapable(w: Write, s: Station) {
    && (w.op.SetTxAudioGain? ==> s.backend.txAudio && s.caps.txAudioGainControl && w.arg.Real? && InPercent(w.arg.x))
    && (w.op.SetProc? ==> s.backend.txAudio && s.caps.procControl)
    && (w.op.SetProcLevel? ==> s.backend.txAudio && s.caps.procLevelControl && w.arg.Real? && InPercent(w.arg.x))
  }

  predicate KeyingCapable(w: Write, s: Station) {
    && (w.op.SetBreakIn? ==> s.caps.breakInControl)
    && (w.op.SetSplit? ==> s.caps.split)
    && (w.op.SetDualWatch? ==> s.caps.dualWatch)
    && (w.op.SetTuner? ==> s.caps.tunerControl)
    && (w.op.SetPtt? ==> s.caps.pttControl)
    && (w.op.StartTune? ==> s.caps.tunerTune)
  }

  /** Whatever a legal request plans is within what the radio says it can do: the capability is
      there, and the value is one it has. */
  lemma PlanCapable(a: Ask, s: Station, item: Item)
    requires Legal(a.r, s) && a.power == PowerFor(a.r, s) && item in Items(Plan(a))
    ensures TuningCapable(item.w, s) && FrontEndCapable(item.w, s) && NoiseCapable(item.w, s)
    ensures TxAudioCapable(item.w, s) && KeyingCapable(item.w, s)
  {
    PlanMeans(a, s, item);
    SaysTuning(a, s, item);
    SaysFrontEnd(a, s, item);
    SaysNoise(a, s, item);
    SaysTxAudio(a, s, item);
    SaysKeying(a, s, item);
    hide *;
  }

  lemma SaysTuning(a: Ask, s: Station, item: Item)
    requires Legal(a.r, s) && Means(a, s, item)
    ensures TuningCapable(item.w, s)
  {
    hide ClampPower, AllowsFrequency, FrontEndLegal, NoiseLegal, TxAudioLegal;
  }

  lemma SaysFrontEnd(a: Ask, s: Station, item: Item)
    requires Legal(a.r, s) && Means(a, s, item)
    ensures FrontEndCapable(item.w, s)
  {
    hide ClampPower, AllowsFrequency, TuningLegal, TransmitLegal, NoiseLegal, TxAudioLegal;
  }

  lemma SaysNoise(a: Ask, s: Station, item: Item)
    requires Legal(a.r, s) && Means(a, s, item)
    ensures NoiseCapable(item.w, s)
  {
    hide ClampPower, AllowsFrequency, TuningLegal, TransmitLegal, FrontEndLegal, TxAudioLegal;
  }

  lemma SaysTxAudio(a: Ask, s: Station, item: Item)
    requires Legal(a.r, s) && Means(a, s, item)
    ensures TxAudioCapable(item.w, s)
  {
    hide ClampPower, AllowsFrequency, TuningLegal, TransmitLegal, FrontEndLegal, NoiseLegal;
  }

  lemma SaysKeying(a: Ask, s: Station, item: Item)
    requires Legal(a.r, s) && Means(a, s, item)
    ensures KeyingCapable(item.w, s)
  {
    KeyingRules(a.r, s);
    KeyingOnly(a, s, item);
    hide Legal, Means;
  }

  lemma KeyingRules(r: Request, s: Station)
    requires Legal(r, s)
    ensures (r.breakIn.Some? ==> s.caps.breakInControl) && (r.split.Some? ==> s.caps.split) && (r.dualWatch.Some? ==> s.caps.dualWatch)
    ensures (r.tuner.Some? ==> s.caps.tunerControl) && (r.ptt.Some? ==> s.caps.pttControl) && (r.tunerTune.Some? ==> s.caps.tunerTune)
  {
    hide ClampPower, AllowsFrequency, FrontEndLegal, NoiseLegal, TxAudioLegal;
  }

  // What keys the radio is asked for in the last section alone.
  lemma KeyingOnly(a: Ask, s: Station, item: Item)
    requires Means(a, s, item)
    ensures KeyingCapable(item.w, s) || KeyingSays(a.r, item.w)
  {
    NotOfTheReceiver(a, s, item.w);
    NotOfTheNoise(a.r, item.w);
    hide ClampPower, KeyingSays, OpeningSays, TuningSays, FrontEndSays, NoiseSays, TxAudioSays;
  }

  predicate KeyingOp(op: Op) {
    op.SetBreakIn? || op.SetSplit? || op.SetDualWatch? || op.SetTuner? || op.SetPtt? || op.StartTune?
  }

  lemma NotOfTheReceiver(a: Ask, s: Station, w: Write)
    ensures OpeningSays(a.r, w) || TuningSays(a.r, s, w) || FrontEndSays(a.r, w) ==> !KeyingOp(w.op)
  {
    hide ClampPower;
  }

  lemma NotOfTheNoise(r: Request, w: Write)
    ensures NoiseSays(r, w) || TxAudioSays(r, w) ==> !KeyingOp(w.op)
  {}
}

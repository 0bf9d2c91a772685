/** A multi-field change as one ordered transaction of CAT writes (internal/rig/session.go). */
module PatchTransaction {
  import opened Basics
  import opened PatchRules

  datatype Op =
    | ExchangeBands | SelectVfoMode | SetVfoMode | SetVfoFrequency
    | SetMode | SetFrequency | SetFilterSlot | SetFilterWidth | SetPower
    | SetAttenuator | SetPreamp | SetIpPlus | SetDigiSel | SetDigiSelShift | SetAgc | SetRfGain
    | SetNoiseBlanker | SetNbLevel | SetNoiseReduction | SetNrLevel | SetAutoNotch | SetNotch | SetNotchWidth | SetNotchFreq
    | SetAntenna | SetRxAntenna
    | SetTxAudioGain | SetProc | SetProcLevel
    | SetBreakIn | SetSplit | SetDualWatch | SetTuner | SetPtt | StartTune

  datatype Arg =
    | Nothing | Num(n: int) | Real(x: real) | Flag(on: bool) | Name(name: string)
    | AgcArg(agc: Agc) | PowerArg(power: PowerSet) | VfoArg(vfo: Vfo) | Hz(vfo: Vfo, hz: nat)
    | ModeArg(mode: string, data: bool) | VfoModeArg(vfo: Vfo, mode: string, data: bool, slot: int)

  datatype Write = Write(op: Op, arg: Arg)

  // What a backend says of one write. A mode table refuses with Refused before anything is sent.
  datatype Reply = Done | Refused | Failed(reason: string)

  datatype Sent = Sent(w: Write, r: Reply)

  // One write, and what to send instead if it is refused.
  datatype Item = Item(w: Write, retry: Option<Write>)

  datatype ModePair = ModePair(mode: string, data: bool)

  // The cached modes as they stand when the mode step is reached.
  datatype Cached = Cached(current: ModePair, a: ModePair, b: ModePair)

  // A request with what it is filled in from: the cached modes and the clamped power.
  datatype Ask = Ask(r: Request, cached: Cached, power: PowerSet)

  // ---- what a request asks for ----

  function OfNum(op: Op, v: Option<int>): (item: Option<Item>)
    ensures item.Some? <==> v.Some?
    ensures item.Some? ==> item.value == Item(Write(op, Num(v.value)), None)
  {
    if v.Some? then Some(Item(Write(op, Num(v.value)), None)) else None
  }

  function OfReal(op: Op, v: Option<real>): (item: Option<Item>)
    ensures item.Some? <==> v.Some?
    ensures item.Some? ==> item.value == Item(Write(op, Real(v.value)), None)
  {
    if v.Some? then Some(Item(Write(op, Real(v.value)), None)) else None
  }

  function OfFlag(op: Op, v: Option<bool>): (item: Option<Item>)
    ensures item.Some? <==> v.Some?
    ensures item.Some? ==> item.value == Item(Write(op, Flag(v.value)), None)
  {
    if v.Some? then Some(Item(Write(op, Flag(v.value)), None)) else None
  }

  function OfName(op: Op, v: Option<string>): (item: Option<Item>)
    ensures item.Some? <==> v.Some?
    ensures item.Some? ==> item.value == Item(Write(op, Name(v.value)), None)
  {
    if v.Some? then Some(Item(Write(op, Name(v.value)), None)) else None
  }


  function OfAgc(v: Option<Agc>): (item: Option<Item>)
    ensures item.Some? <==> v.Some?
    ensures item.Some? ==> item.value == Item(Write(SetAgc, AgcArg(v.value)), None)
  {
    if v.Some? then Some(Item(Write(SetAgc, AgcArg(v.value)), None)) else None
  }

  /** The mode and data flag to write: what the request says, and the cache for what it does not. */
  function Wanted(r: Request, cur: ModePair): ModePair {
    ModePair(if r.mode.Some? then r.mode.value else cur.mode, if r.dataMode.Some? then r.dataMode.value else cur.data)
  }

  function VfoCached(c: Cached, vfo: Vfo): ModePair { if vfo == VfoB || vfo == VfoSub then c.b else c.a }

  function ModeWrite(named: Option<(Vfo, int)>, m: ModePair): Write {
    if named.Some? then Write(SetVfoMode, VfoModeArg(named.value.0, m.mode, m.data, named.value.1))
    else Write(SetMode, ModeArg(m.mode, m.data))
  }

  /** A flag the request did not spell out may be given up; one it did may not. */
  function ModeItem(named: Option<(Vfo, int)>, m: ModePair, explicit: bool): Item {
    Item(ModeWrite(named, m), if !explicit && m.data then Some(ModeWrite(named, m.(data := false))) else None)
  }

  function FilterSlot(r: Request): int { if r.filterSlot.Some? then r.filterSlot.value else 0 }

  predicate ModeAsked(r: Request) { r.mode.Some? || r.dataMode.Some? }

  type Slot = Option<Item>

  function OpeningSlots(a: Ask): seq<Slot> {
    [if a.r.exchangeBands.Some? then Some(Item(Write(ExchangeBands, Nothing), None)) else None,
     if a.r.vfoMode.Some? then Some(Item(Write(SelectVfoMode, VfoArg(a.r.vfo)), None)) else None]
  }

  /** A request that names a VFO: mode, data flag and filter go out together, then the frequency. */
  function NamedSlots(a: Ask): seq<Slot> {
    [if NamesVfo(a.r) && ModeAsked(a.r)
     then Some(ModeItem(Some((a.r.vfo, FilterSlot(a.r))), Wanted(a.r, VfoCached(a.cached, a.r.vfo)), a.r.dataMode.Some?)) else None,
     if NamesVfo(a.r) && a.r.frequency.Some? then Some(Item(Write(SetVfoFrequency, Hz(a.r.vfo, a.r.frequency.value)), None)) else None]
  }

  function TuningSlots(a: Ask): seq<Slot> {
    [if !NamesVfo(a.r) && ModeAsked(a.r) then Some(ModeItem(None, Wanted(a.r, a.cached.current), a.r.dataMode.Some?)) else None,
     if !NamesVfo(a.r) && a.r.frequency.Some? then Some(Item(Write(SetFrequency, Hz(a.r.vfo, a.r.frequency.value)), None)) else None,
     if NamesVfo(a.r) && ModeAsked(a.r) then None else OfNum(SetFilterSlot, a.r.filterSlot),
     OfNum(SetFilterWidth, a.r.filterWidthHz),
     if a.r.power.Some? then Some(Item(Write(SetPower, PowerArg(a.power)), None)) else None]
  }

  function FrontEndSlots(a: Ask): seq<Slot> {
    [OfNum(SetAttenuator, a.r.attenuatorDb), OfNum(SetPreamp, a.r.preamp), OfFlag(SetIpPlus, a.r.ipPlus),
     OfFlag(SetDigiSel, a.r.digiSel), OfReal(SetDigiSelShift, a.r.digiSelShift), OfAgc(a.r.agc), OfReal(SetRfGain, a.r.rfGain)]
  }

  function NoiseSlots(a: Ask): seq<Slot> {
    [OfNum(SetNoiseBlanker, a.r.noiseBlanker), OfReal(SetNbLevel, a.r.nbLevel),
     OfNum(SetNoiseReduction, a.r.noiseReduction), OfReal(SetNrLevel, a.r.nrLevel),
     OfFlag(SetAutoNotch, a.r.autoNotch), OfFlag(SetNotch, a.r.notch),
     OfName(SetNotchWidth, a.r.notchWidth), OfReal(SetNotchFreq, a.r.notchFreq),
     OfNum(SetAntenna, a.r.antenna), OfFlag(SetRxAntenna, a.r.rxAntenna)]
  }

  function TxAudioSlots(a: Ask): seq<Slot> {
    [OfReal(SetTxAudioGain, a.r.txAudioGain), OfFlag(SetProc, a.r.proc), OfReal(SetProcLevel, a.r.procLevel)]
  }

  function KeyingSlots(a: Ask): seq<Slot> {
    [OfName(SetBreakIn, a.r.breakIn), OfFlag(SetSplit, a.r.split), OfFlag(SetDualWatch, a.r.dualWatch),
     if a.r.tuner.Some? then Some(Item(Write(SetTuner, Flag(a.r.tuner.value == TunerOn)), None)) else None,
     OfFlag(SetPtt, a.r.ptt),
     if a.r.tunerTune.Some? then Some(Item(Write(StartTune, Nothing), None)) else None]
  }

  /** The one order: which receiver, which mode, where, how it receives, how it transmits, and
      last of all whether it transmits. */
  function Plan(a: Ask): seq<Slot> {
    OpeningSlots(a) + NamedSlots(a) + TuningSlots(a) + FrontEndSlots(a) + NoiseSlots(a) + TxAudioSlots(a) + KeyingSlots(a)
  }

  // ---- what is sent ----

  // How a backend answers, given everything it has been sent.
  type Answers = (seq<Sent>, Write) -> Reply

  // One operation's writes: one, or a refused mode and its second try.
  datatype Group = Group(item: Item, sent: seq<Sent>)

  function Tried(item: Item, log: seq<Sent>, answer: Answers): Group {
    var first := Sent(item.w, answer(log, item.w));
    if first.r.Refused? && item.retry.Some? then
      Group(item, [first, Sent(item.retry.value, answer(log + [first], item.retry.value))])
    else Group(item, [first])
  }

  function Last(g: Group): Reply { if g.sent == [] then Done else g.sent[|g.sent| - 1].r }

  /** Slot by slot, until one does not succeed. */
  function Run(slots: seq<Slot>, log: seq<Sent>, answer: Answers): (seq<Group>, Reply) {
    if slots == [] then ([], Done)
    else if slots[0].None? then Run(slots[1..], log, answer)
    else
      var g := Tried(slots[0].value, log, answer);
      if Last(g).Done? then
        var (gs, r) := Run(slots[1..], log + g.sent, answer);
        ([g] + gs, r)
      else ([g], Last(g))
  }

  function Writes(gs: seq<Group>): seq<Sent> {
    if gs == [] then [] else gs[0].sent + Writes(gs[1..])
  }

  /** What the log and the error are once the slots have been worked through. */
  predicate Did(slots: seq<Slot>, answer: Answers, before: seq<Sent>, after: seq<Sent>, err: Reply) {
    var (gs, r) := Run(slots, before, answer);
    after == before + Writes(gs) && err == r
  }

  lemma DidNothing(answer: Answers, log: seq<Sent>)
    ensures Did([], answer, log, log, Done)
  {
    assert log + [] == log;
  }

  /** Two stretches of slots run one after the other. */
  lemma DidThen(x: seq<Slot>, y: seq<Slot>, answer: Answers, log: seq<Sent>, mid: seq<Sent>, r: Reply)
    requires Did(x, answer, log, mid, r)
    ensures r.Done? ==> forall after, err :: Did(y, answer, mid, after, err) ==> Did(x + y, answer, log, after, err)
    ensures !r.Done? ==> Did(x + y, answer, log, mid, r)
  {
    RunThen(x, y, answer, log);
    var (gx, rx) := Run(x, log, answer);
    if r.Done? {
      var (gy, ry) := Run(y, mid, answer);
      WritesConcat(gx, gy);
      assert log + (Writes(gx) + Writes(gy)) == mid + Writes(gy);
    }
  }

  lemma {:induction false} WritesConcat(x: seq<Group>, y: seq<Group>)
    ensures Writes(x + y) == Writes(x) + Writes(y)
  {
    if x == [] {
      assert x + y == y;
    } else {
      assert (x + y)[1..] == x[1..] + y;
      WritesConcat(x[1..], y);
    }
  }

  lemma {:induction false} RunThen(x: seq<Slot>, y: seq<Slot>, answer: Answers, log: seq<Sent>)
    ensures var (gx, rx) := Run(x, log, answer);
      Run(x + y, log, answer)
        == if rx.Done? then (var (gy, ry) := Run(y, log + Writes(gx), answer); (gx + gy, ry)) else (gx, rx)
    decreases |x|
  {
    hide Tried;
    if x == [] {
      assert x + y == y && log + [] == log;
      var (gy, ry) := Run(y, log, answer);
      assert [] + gy == gy;
    } else {
      assert (x + y)[1..] == x[1..] + y;
      if x[0].None? {
        RunThen(x[1..], y, answer, log);
      } else {
        var g := Tried(x[0].value, log, answer);
        if Last(g).Done? {
          RunThen(x[1..], y, answer, log + g.sent);
          var (gx, rx) := Run(x[1..], log + g.sent, answer);
          assert ([g] + gx)[1..] == gx;
          assert log + g.sent + Writes(gx) == log + (g.sent + Writes(gx));
          if rx.Done? {
            var (gy, ry) := Run(y, log + g.sent + Writes(gx), answer);
            assert [g] + (gx + gy) == [g] + gx + gy;
          }
        }
      }
    }
  }

  lemma PutIsRun(slot: Slot, log: seq<Sent>, answer: Answers)
    ensures slot.None? ==> Did([slot], answer, log, log, Done)
    ensures slot.Some? ==> var g := Tried(slot.value, log, answer); Did([slot], answer, log, log + g.sent, Last(g))
  {
    hide Tried;
    assert [slot][1..] == [] && log + [] == log;
    if slot.None? {
      assert Run([slot], log, answer) == Run([], log, answer) == ([], Done);
    } else {
      var g := Tried(slot.value, log, answer);
      assert Run([], log + g.sent, answer) == ([], Done);
      assert [g] + [] == [g] && [g][1..] == [] && g.sent + [] == g.sent;
      assert Run([slot], log, answer) == ([g], Last(g));
      assert Writes([g]) == g.sent;
    }
  }

  // ---- the transaction itself ----

  datatype Response = Answered(err: Reply) | Rejected(why: Refusal) | NotConnected

  class Session {
    var log: seq<Sent>
    const answer: Answers

    constructor (answer: Answers)
      ensures log == [] && this.answer == answer
    {
      this.answer := answer;
      log := [];
    }

    method Send(w: Write) returns (r: Reply)
      modifies this
      ensures r == answer(old(log), w) && log == old(log) + [Sent(w, r)]
    {
      r := answer(log, w);
      log := log + [Sent(w, r)];
    }

    /** One requested setting, if it was requested. */
    method Put(item: Slot) returns (err: Reply)
      requires item.Some? ==> item.value.retry.None?
      modifies this
      ensures Did([item], answer, old(log), log, err)
    {
      PutIsRun(item, log, answer);
      if item.None? { return Done; }
      err := Send(item.value.w);
      assert [log[|log| - 1]] + [] == [log[|log| - 1]];
    }

    /** Mode and data flag together, without the flag if the radio has no such pair and the
        request did not insist on it. */
    method ApplyModePair(named: Option<(Vfo, int)>, m: ModePair, explicit: bool) returns (err: Reply)
      modifies this
      ensures Did([Some(ModeItem(named, m, explicit))], answer, old(log), log, err)
    {
      hide ModeWrite;
      PutIsRun(Some(ModeItem(named, m, explicit)), log, answer);
      var w := ModeWrite(named, m);
      err := Send(w);
      if err.Refused? && !explicit && m.data {
        var first := Sent(w, err);
        err := Send(ModeWrite(named, m.(data := false)));
        assert old(log) + [first] + [Sent(ModeWrite(named, m.(data := false)), err)]
            == old(log) + [first, Sent(ModeWrite(named, m.(data := false)), err)];
      }
    }

    /** Put, as slot k of the slots that began at start. If it fails, so do they all. */
    method PutNext(item: Slot, ghost slots: seq<Slot>, ghost k: nat, ghost start: seq<Sent>) returns (err: Reply)
      requires k < |slots| && slots[k] == item && (item.Some? ==> item.value.retry.None?)
      requires Did(slots[..k], answer, start, log, Done)
      modifies this
      ensures err.Done? ==> Did(slots[..k + 1], answer, start, log, Done)
      ensures !err.Done? ==> Did(slots, answer, start, log, err)
    {
      hide Did;
      DidThen(slots[..k], [item], answer, start, log, Done);
      err := Put(item);
      assert slots[..k + 1] == slots[..k] + [item];
      if !err.Done? {
        DidThen(slots[..k + 1], slots[k + 1..], answer, start, log, err);
        assert slots[..k + 1] + slots[k + 1..] == slots;
      }
    }

    method ApplyOpening(r: Request, ghost a: Ask) returns (err: Reply)
      requires a.r == r
      modifies this
      ensures Did(OpeningSlots(a), answer, old(log), log, err)
    {
      hide Did, OfNum, OfReal, OfFlag, OfName, OfAgc;
      ghost var slots, start := OpeningSlots(a), log;
      DidNothing(answer, log);
      err := PutNext(if r.exchangeBands.Some? then Some(Item(Write(ExchangeBands, Nothing), None)) else None, slots, 0, start);
      if !err.Done? { return; }
      err := PutNext(if r.vfoMode.Some? then Some(Item(Write(SelectVfoMode, VfoArg(r.vfo)), None)) else None, slots, 1, start);
      assert slots[..2] == slots;
    }

    method ApplyNamed(r: Request, cached: Cached, ghost a: Ask) returns (err: Reply)
      requires a.r == r && a.cached == cached
      modifies this
      ensures Did(NamedSlots(a), answer, old(log), log, err)
    {
      ghost var slots, start := NamedSlots(a), log;
      hide Did, ModeItem, Wanted;
      assert slots[..1] == [slots[0]];
      if NamesVfo(r) && (r.mode.Some? || r.dataMode.Some?) {
        var m := Wanted(r, VfoCached(cached, r.vfo));
        var slot := 0;
        if r.filterSlot.Some? { slot := r.filterSlot.value; }
        err := ApplyModePair(Some((r.vfo, slot)), m, r.dataMode.Some?);
      } else {
        PutIsRun(None, log, answer);
        err := Done;
      }
      if !err.Done? {
        DidThen(slots[..1], slots[1..], answer, start, log, err);
        assert slots[..1] + slots[1..] == slots;
        return;
      }
      err := PutNext(if NamesVfo(r) && r.frequency.Some? then Some(Item(Write(SetVfoFrequency, Hz(r.vfo, r.frequency.value)), None)) else None, slots, 1, start);
      assert slots[..2] == slots;
    }

    method ApplyTuning(r: Request, cached: Cached, power: PowerSet, ghost a: Ask) returns (err: Reply)
      requires a == Ask(r, cached, power)
      modifies this
      ensures Did(TuningSlots(a), answer, old(log), log, err)
    {
      ghost var slots, start := TuningSlots(a), log;
      hide Did, ModeItem, Wanted, OfNum;
      assert slots[..1] == [slots[0]];
      if !NamesVfo(r) && (r.mode.Some? || r.dataMode.Some?) {
        err := ApplyModePair(None, Wanted(r, cached.current), r.dataMode.Some?);
      } else {
        PutIsRun(None, log, answer);
        err := Done;
      }
      if !err.Done? {
        DidThen(slots[..1], slots[1..], answer, start, log, err);
        assert slots[..1] + slots[1..] == slots;
        return;
      }
      err := PutNext(if !NamesVfo(r) && r.frequency.Some? then Some(Item(Write(SetFrequency, Hz(r.vfo, r.frequency.value)), None)) else None, slots, 1, start);
      if !err.Done? { return; }
      err := PutNext(if NamesVfo(r) && ModeAsked(r) then None else OfNum(SetFilterSlot, r.filterSlot), slots, 2, start);
      if !err.Done? { return; }
      err := PutNext(OfNum(SetFilterWidth, r.filterWidthHz), slots, 3, start);
      if !err.Done? { return; }
      err := PutNext(if r.power.Some? then Some(Item(Write(SetPower, PowerArg(power)), None)) else None, slots, 4, start);
      assert slots[..5] == slots;
    }

    /** The signal path: pad and preamplifier first, the gain controls behind them. */
    method ApplyFrontEnd(r: Request, ghost a: Ask) returns (err: Reply)
      requires a.r == r
      modifies this
      ensures Did(FrontEndSlots(a), answer, old(log), log, err)
    {
      hide Did, OfNum, OfReal, OfFlag, OfName, OfAgc;
      ghost var slots, start := FrontEndSlots(a), log;
      DidNothing(answer, log);
      err := PutNext(OfNum(SetAttenuator, r.attenuatorDb), slots, 0, start);
      if !err.Done? { return; }
      err := PutNext(OfNum(SetPreamp, r.preamp), slots, 1, start);
      if !err.Done? { return; }
      err := PutNext(OfFlag(SetIpPlus, r.ipPlus), slots, 2, start);
      if !err.Done? { return; }
      err := PutNext(OfFlag(SetDigiSel, r.digiSel), slots, 3, start);
      if !err.Done? { return; }
      err := PutNext(OfReal(SetDigiSelShift, r.digiSelShift), slots, 4, start);
      if !err.Done? { return; }
      err := PutNext(OfAgc(r.agc), slots, 5, start);
      if !err.Done? { return; }
      err := PutNext(OfReal(SetRfGain, r.rfGain), slots, 6, start);
      assert slots[..7] == slots;
    }

    /** Switches before the levels behind them. */
    method ApplyNoise(r: Request, ghost a: Ask) returns (err: Reply)
      requires a.r == r
      modifies this
      ensures Did(NoiseSlots(a), answer, old(log), log, err)
    {
      hide Did, OfNum, OfReal, OfFlag, OfName, OfAgc;
      ghost var slots, start := NoiseSlots(a), log;
      DidNothing(answer, log);
      err := PutNext(OfNum(SetNoiseBlanker, r.noiseBlanker), slots, 0, start);
      if !err.Done? { return; }
      err := PutNext(OfReal(SetNbLevel, r.nbLevel), slots, 1, start);
      if !err.Done? { return; }
      err := PutNext(OfNum(SetNoiseReduction, r.noiseReduction), slots, 2, start);
      if !err.Done? { return; }
      err := PutNext(OfReal(SetNrLevel, r.nrLevel), slots, 3, start);
      if !err.Done? { return; }
      err := PutNext(OfFlag(SetAutoNotch, r.autoNotch), slots, 4, start);
      if !err.Done? { return; }
      err := PutNext(OfFlag(SetNotch, r.notch), slots, 5, start);
      if !err.Done? { return; }
      err := PutNext(OfName(SetNotchWidth, r.notchWidth), slots, 6, start);
      if !err.Done? { return; }
      err := PutNext(OfReal(SetNotchFreq, r.notchFreq), slots, 7, start);
      if !err.Done? { return; }
      err := PutNext(OfNum(SetAntenna, r.antenna), slots, 8, start);
      if !err.Done? { return; }
      err := PutNext(OfFlag(SetRxAntenna, r.rxAntenna), slots, 9, start);
      assert slots[..10] == slots;
    }

    method ApplyTxAudio(r: Request, ghost a: Ask) returns (err: Reply)
      requires a.r == r
      modifies this
      ensures Did(TxAudioSlots(a), answer, old(log), log, err)
    {
      hide Did, OfNum, OfReal, OfFlag, OfName, OfAgc;
      ghost var slots, start := TxAudioSlots(a), log;
      DidNothing(answer, log);
      err := PutNext(OfReal(SetTxAudioGain, r.txAudioGain), slots, 0, start);
      if !err.Done? { return; }
      err := PutNext(OfFlag(SetProc, r.proc), slots, 1, start);
      if !err.Done? { return; }
      err := PutNext(OfReal(SetProcLevel, r.procLevel), slots, 2, start);
      assert slots[..3] == slots;
    }

    /** What could transmit comes last. */
    method ApplyKeying(r: Request, ghost a: Ask) returns (err: Reply)
      requires a.r == r
      modifies this
      ensures Did(KeyingSlots(a), answer, old(log), log, err)
    {
      hide Did, OfNum, OfReal, OfFlag, OfName, OfAgc;
      ghost var slots, start := KeyingSlots(a), log;
      DidNothing(answer, log);
      err := PutNext(OfName(SetBreakIn, r.breakIn), slots, 0, start);
      if !err.Done? { return; }
      err := PutNext(OfFlag(SetSplit, r.split), slots, 1, start);
      if !err.Done? { return; }
      err := PutNext(OfFlag(SetDualWatch, r.dualWatch), slots, 2, start);
      if !err.Done? { return; }
      err := PutNext(if r.tuner.Some? then Some(Item(Write(SetTuner, Flag(r.tuner.value == TunerOn)), None)) else None, slots, 3, start);
      if !err.Done? { return; }
      err := PutNext(OfFlag(SetPtt, r.ptt), slots, 4, start);
      if !err.Done? { return; }
      err := PutNext(if r.tunerTune.Some? then Some(Item(Write(StartTune, Nothing), None)) else None, slots, 5, start);
      assert slots[..6] == slots;
    }

    /** Every write of the transaction, or as many as succeed and the one that does not. */
    method ApplyWrites(r: Request, cached: Cached, power: PowerSet) returns (err: Reply)
      modifies this
      ensures Did(Plan(Ask(r, cached, power)), answer, old(log), log, err)
    {
      hide *;
      ghost var a, start := Ask(r, cached, power), log;
      err := ApplyOpening(r, a);
      ghost var done := OpeningSlots(a);
      DidThen(done, NamedSlots(a), answer, start, log, err);
      if err.Done? { err := ApplyNamed(r, cached, a); }
      done := done + NamedSlots(a);
      DidThen(done, TuningSlots(a), answer, start, log, err);
      if err.Done? { err := ApplyTuning(r, cached, power, a); }
      done := done + TuningSlots(a);
      DidThen(done, FrontEndSlots(a), answer, start, log, err);
      if err.Done? { err := ApplyFrontEnd(r, a); }
      done := done + FrontEndSlots(a);
      DidThen(done, NoiseSlots(a), answer, start, log, err);
      if err.Done? { err := ApplyNoise(r, a); }
      done := done + NoiseSlots(a);
      DidThen(done, TxAudioSlots(a), answer, start, log, err);
      if err.Done? { err := ApplyTxAudio(r, a); }
      done := done + TxAudioSlots(a);
      DidThen(done, KeyingSlots(a), answer, start, log, err);
      if err.Done? { err := ApplyKeying(r, a); }
      PlanIs(a);
    }

    /** The whole call. What is illegal for the station is rejected, and what is unreachable
        refused, before anything is written. */
    method ApplyPatch(r: Request, s: Station, connected: bool, cached: Cached) returns (res: Response)
      modifies this
      ensures !Legal(r, s) ==> res.Rejected? && log == old(log)
      ensures Legal(r, s) && Empty(r) ==> res == Answered(Done) && log == old(log)
      ensures Legal(r, s) && !Empty(r) && !connected ==> res == NotConnected && log == old(log)
      ensures Legal(r, s) && !Empty(r) && connected ==>
        res.Answered? && Did(Plan(Ask(r, cached, PowerFor(r, s))), answer, old(log), log, res.err)
    {
      EmptyIsLegal(r, s);
      hide Did, Plan, Legal, Empty, TuningLegal, TransmitLegal, FrontEndLegal, NoiseLegal, TxAudioLegal, ClampPower;
      var reachable := (r.vfo == VfoCurrent || r.vfo in s.caps.vfos) && (!NamesVfo(r) || s.backend.dualVfo);
      if !reachable { return Rejected(Unsupported); }
      if Empty(r) { return Answered(Done); }
      var v := Validate(r, s);
      if v.Err? { return Rejected(v.error); }
      if !connected { return NotConnected; }
      var power := if r.power.Some? then v.value else PowerSet(None, None);
      var err := ApplyWrites(r, cached, power);
      res := Answered(err);
    }
  }

  /** The power a legal request sends out. */
  function PowerFor(r: Request, s: Station): PowerSet {
    if r.power.Some? && ClampPower(r.power.value, s.caps, s.limits).Ok? then ClampPower(r.power.value, s.caps, s.limits).value
    else PowerSet(None, None)
  }

  lemma EmptyIsLegal(r: Request, s: Station)
    ensures Empty(r) && VfoReachable(r, s) ==> Legal(r, s)
    ensures Legal(r, s) ==> VfoReachable(r, s) && (r.power.Some? ==> ClampPower(r.power.value, s.caps, s.limits).Ok?)
  {
    hide ClampPower, AllowsFrequency;
  }

  lemma PlanIs(a: Ask)
    ensures Plan(a) == OpeningSlots(a) + NamedSlots(a) + TuningSlots(a) + FrontEndSlots(a) + NoiseSlots(a) + TxAudioSlots(a) + KeyingSlots(a)
  {}

  // ---- the law of the trace ----

  /** The place of an operation in the one order. */
  function Rank(op: Op): nat {
    match op
    case ExchangeBands => 0 case SelectVfoMode => 1 case SetVfoMode => 2 case SetVfoFrequency => 3
    case SetMode => 4 case SetFrequency => 5 case SetFilterSlot => 6 case SetFilterWidth => 7 case SetPower => 8
    case SetAttenuator => 9 case SetPreamp => 10 case SetIpPlus => 11 case SetDigiSel => 12
    case SetDigiSelShift => 13 case SetAgc => 14 case SetRfGain => 15
    case SetNoiseBlanker => 16 case SetNbLevel => 17 case SetNoiseReduction => 18 case SetNrLevel => 19
    case SetAutoNotch => 20 case SetNotch => 21 case SetNotchWidth => 22 case SetNotchFreq => 23
    case SetAntenna => 24 case SetRxAntenna => 25
    case SetTxAudioGain => 26 case SetProc => 27 case SetProcLevel => 28
    case SetBreakIn => 29 case SetSplit => 30 case SetDualWatch => 31 case SetTuner => 32 case SetPtt => 33 case StartTune => 34
  }

  predicate Transmits(op: Op) { op.SetPtt? || op.StartTune? }

  predicate IsMode(op: Op) { op.SetMode? || op.SetVfoMode? }

  predicate IsFrequency(op: Op) { op.SetFrequency? || op.SetVfoFrequency? }

  /** The items a plan holds, in order. */
  function Items(slots: seq<Slot>): seq<Item> {
    if slots == [] then [] else (if slots[0].Some? then [slots[0].value] else []) + Items(slots[1..])
  }

  function ItemsOf(gs: seq<Group>): seq<Item> {
    if gs == [] then [] else [gs[0].item] + ItemsOf(gs[1..])
  }

  // Slot k holds nothing, or the operation of rank base + k.
  predicate Placed(slots: seq<Slot>, base: nat) {
    slots == [] || ((slots[0].Some? ==> Rank(slots[0].value.w.op) == base) && Placed(slots[1..], base + 1))
  }

  predicate Ascending(items: seq<Item>, base: nat) {
    items == [] || (Rank(items[0].w.op) >= base && Ascending(items[1..], Rank(items[0].w.op) + 1))
  }

  lemma {:induction false} PlacedConcat(x: seq<Slot>, y: seq<Slot>, base: nat)
    requires Placed(x, base) && Placed(y, base + |x|)
    ensures Placed(x + y, base)
  {
    hide Rank;
    if x == [] {
      assert x + y == y;
    } else {
      PlacedConcat(x[1..], y, base + 1);
      assert (x + y)[1..] == x[1..] + y;
    }
  }

  lemma {:induction false} PlacedItems(slots: seq<Slot>, base: nat, low: nat)
    requires Placed(slots, base) && low <= base
    ensures Ascending(Items(slots), low)
    decreases |slots|
  {
    hide Rank;
    if slots != [] {
      var tail := Items(slots[1..]);
      if slots[0].Some? {
        PlacedItems(slots[1..], base + 1, base + 1);
        assert ([slots[0].value] + tail)[1..] == tail;
      } else {
        PlacedItems(slots[1..], base + 1, low);
        assert [] + tail == tail;
      }
    }
  }

  lemma PlacedAll(slots: seq<Slot>, base: nat)
    requires forall k :: 0 <= k < |slots| && slots[k].Some? ==> Rank(slots[k].value.w.op) == base + k
    ensures Placed(slots, base)
    decreases |slots|
  {
    hide Rank;
    if slots != [] {
      assert forall k :: 0 <= k < |slots| - 1 ==> slots[1..][k] == slots[k + 1];
      PlacedAll(slots[1..], base + 1);
    }
  }

  lemma OpeningPlaced(a: Ask)
    ensures Placed(OpeningSlots(a), 0) && |OpeningSlots(a)| == 2
  {
    hide Placed;
    PlacedAll(OpeningSlots(a), 0);
  }

  lemma NamedPlaced(a: Ask)
    ensures Placed(NamedSlots(a), 2) && |NamedSlots(a)| == 2
  {
    hide Placed;
    PlacedAll(NamedSlots(a), 2);
  }

  lemma TuningPlaced(a: Ask)
    ensures Placed(TuningSlots(a), 4) && |TuningSlots(a)| == 5
  {
    hide OfNum, Placed;
    PlacedAll(TuningSlots(a), 4);
  }

  lemma FrontEndPlaced(a: Ask)
    ensures Placed(FrontEndSlots(a), 9) && |FrontEndSlots(a)| == 7
  {
    hide OfNum, OfReal, OfFlag, OfAgc, Placed;
    PlacedAll(FrontEndSlots(a), 9);
  }

  lemma NoiseRanks()
    ensures Rank(SetNoiseBlanker) == 16 && Rank(SetNbLevel) == 17 && Rank(SetNoiseReduction) == 18 && Rank(SetNrLevel) == 19
    ensures Rank(SetAutoNotch) == 20 && Rank(SetNotch) == 21 && Rank(SetNotchWidth) == 22 && Rank(SetNotchFreq) == 23
    ensures Rank(SetAntenna) == 24 && Rank(SetRxAntenna) == 25
  {}

  lemma NoisePlaced(a: Ask)
    ensures Placed(NoiseSlots(a), 16) && |NoiseSlots(a)| == 10
  {
    hide OfNum, OfReal, OfFlag, OfName, Placed, Rank;
    NoiseRanks();
    PlacedAll(NoiseSlots(a), 16);
  }

  lemma TxAudioPlaced(a: Ask)
    ensures Placed(TxAudioSlots(a), 26) && |TxAudioSlots(a)| == 3
  {
    hide OfReal, OfFlag, Placed;
    PlacedAll(TxAudioSlots(a), 26);
  }

  lemma KeyingPlaced(a: Ask)
    ensures Placed(KeyingSlots(a), 29) && |KeyingSlots(a)| == 6
  {
    hide OfFlag, OfName, Placed;
    PlacedAll(KeyingSlots(a), 29);
  }

  /** Every operation has its own place in the plan, whatever is asked. */
  lemma PlanPlaced(a: Ask)
    ensures Placed(Plan(a), 0) && |Plan(a)| == 35
    ensures Plan(a)[2..9] == NamedSlots(a) + TuningSlots(a)
  {
    hide *;
    OpeningPlaced(a);
    NamedPlaced(a);
    TuningPlaced(a);
    FrontEndPlaced(a);
    NoisePlaced(a);
    TxAudioPlaced(a);
    KeyingPlaced(a);
    PlacedConcat(OpeningSlots(a), NamedSlots(a), 0);
    PlacedConcat(OpeningSlots(a) + NamedSlots(a), TuningSlots(a), 0);
    PlacedConcat(OpeningSlots(a) + NamedSlots(a) + TuningSlots(a), FrontEndSlots(a), 0);
    PlacedConcat(OpeningSlots(a) + NamedSlots(a) + TuningSlots(a) + FrontEndSlots(a), NoiseSlots(a), 0);
    PlacedConcat(OpeningSlots(a) + NamedSlots(a) + TuningSlots(a) + FrontEndSlots(a) + NoiseSlots(a), TxAudioSlots(a), 0);
    PlacedConcat(OpeningSlots(a) + NamedSlots(a) + TuningSlots(a) + FrontEndSlots(a) + NoiseSlots(a) + TxAudioSlots(a), KeyingSlots(a), 0);
    PlanIs(a);
  }

  /** The plan asks for no operation twice, and keeps the one order. */
  lemma PlanOrdered(a: Ask)
    ensures Ascending(Items(Plan(a)), 0)
  {
    hide *;
    PlanPlaced(a);
    PlacedItems(Plan(a), 0, 0);
  }

  lemma {:induction false} AscendingPair(items: seq<Item>, base: nat, i: nat, j: nat)
    requires Ascending(items, base) && i <= j < |items|
    ensures base <= Rank(items[i].w.op)
    ensures i < j ==> Rank(items[i].w.op) < Rank(items[j].w.op)
    decreases |items|
  {
    hide Rank;
    if i == 0 {
      if j > 0 { AscendingPair(items[1..], Rank(items[0].w.op) + 1, j - 1, j - 1); }
    } else {
      AscendingPair(items[1..], Rank(items[0].w.op) + 1, i - 1, j - 1);
    }
  }

  /** A group is its item's write, or a refused write and the item's second choice. */
  predicate Shaped(g: Group) {
    || (|g.sent| == 1 && g.sent[0].w == g.item.w && (g.sent[0].r.Refused? ==> g.item.retry.None?))
    || (|g.sent| == 2 && g.sent[0] == Sent(g.item.w, Refused) && g.item.retry == Some(g.sent[1].w))
  }

  /** What a run does with any plan: a prefix of its items, each in its shape, every one but
      perhaps the last successful, and the whole plan exactly when nothing failed. */
  predicate Lawful(gs: seq<Group>, plan: seq<Item>, err: Reply) {
    && ItemsOf(gs) <= plan
    && (forall i :: 0 <= i < |gs| ==> Shaped(gs[i]))
    && (forall i :: 0 <= i < |gs| - 1 ==> Last(gs[i]).Done?)
    && (err.Done? <==> ItemsOf(gs) == plan && (gs != [] ==> Last(gs[|gs| - 1]).Done?))
    && (!err.Done? ==> gs != [] && Last(gs[|gs| - 1]) == err)
  }

  lemma {:induction false} RunLawful(slots: seq<Slot>, log: seq<Sent>, answer: Answers)
    ensures var (gs, r) := Run(slots, log, answer); Lawful(gs, Items(slots), r)
    decreases |slots|
  {
    if slots != [] {
      var tail := Items(slots[1..]);
      if slots[0].None? {
        RunLawful(slots[1..], log, answer);
        assert [] + tail == tail;
      } else {
        var g := Tried(slots[0].value, log, answer);
        assert Shaped(g);
        if Last(g).Done? {
          var (gs, r) := Run(slots[1..], log + g.sent, answer);
          RunLawful(slots[1..], log + g.sent, answer);
          hide Tried, Shaped, Run, Items, Last;
          LawfulCons(g, gs, tail, r);
        } else {
          assert [g][1..] == [] && ItemsOf([g]) == [g.item] <= [g.item] + tail;
        }
      }
    }
  }

  lemma LawfulCons(g: Group, gs: seq<Group>, tail: seq<Item>, r: Reply)
    requires Shaped(g) && Last(g).Done? && Lawful(gs, tail, r)
    ensures Lawful([g] + gs, [g.item] + tail, r)
  {
    hide Shaped, Last;
    var all := [g] + gs;
    assert all[1..] == gs;
    assert ItemsOf(all) == [g.item] + ItemsOf(gs);
    assert ItemsOf(gs) == tail ==> ItemsOf(all) == [g.item] + tail;
    assert ItemsOf(all) == [g.item] + tail ==> ItemsOf(gs) == tail by {
      if ItemsOf(all) == [g.item] + tail { assert ItemsOf(all)[1..] == tail && ItemsOf(all)[1..] == ItemsOf(gs); }
    }
  }

  lemma {:induction false} ItemsOfAt(gs: seq<Group>)
    ensures |ItemsOf(gs)| == |gs| && forall i :: 0 <= i < |gs| ==> ItemsOf(gs)[i] == gs[i].item
  {
    if gs != [] { ItemsOfAt(gs[1..]); }
  }

  /** item's own group is there and ended well. */
  predicate Achieved(gs: seq<Group>, item: Item) {
    exists i :: 0 <= i < |gs| && gs[i].item == item && Last(gs[i]).Done?
  }

  /** The write-trace law. Whatever was sent falls into groups, one for each operation asked for,
      in the one order and none twice; a group is one write, or a refused write and one retry.
      A write goes out only when everything the request asks for that is earlier in the order has
      been achieved; and nothing that transmits goes out before everything the request asks for
      that does not. */
  lemma TransactionLaw(a: Ask, answer: Answers, before: seq<Sent>, after: seq<Sent>, err: Reply) returns (gs: seq<Group>)
    requires Did(Plan(a), answer, before, after, err)
    ensures after == before + Writes(gs) && Lawful(gs, Items(Plan(a)), err)
    ensures forall i, j :: 0 <= i < j < |gs| ==> Rank(gs[i].item.w.op) < Rank(gs[j].item.w.op)
    ensures forall j, item :: 0 <= j < |gs| && item in Items(Plan(a)) && Rank(item.w.op) < Rank(gs[j].item.w.op) ==>
      Achieved(gs[..j], item)
    ensures forall j, item :: 0 <= j < |gs| && Transmits(gs[j].item.w.op) && item in Items(Plan(a)) && !Transmits(item.w.op) ==>
      Achieved(gs[..j], item)
  {
    hide Rank, Plan, Shaped, Last, Items, Transmits;
    gs := Run(Plan(a), before, answer).0;
    RunLawful(Plan(a), before, answer);
    PlanOrdered(a);
    ItemsOfAt(gs);
    forall i, j | 0 <= i < j < |gs| ensures Rank(gs[i].item.w.op) < Rank(gs[j].item.w.op) {
      AscendingPair(Items(Plan(a)), 0, i, j);
    }
    forall j, item | 0 <= j < |gs| && item in Items(Plan(a)) && Rank(item.w.op) < Rank(gs[j].item.w.op)
      ensures Achieved(gs[..j], item)
    {
      var k :| 0 <= k < |Items(Plan(a))| && Items(Plan(a))[k] == item;
      if j <= k { AscendingPair(Items(Plan(a)), 0, j, k); }
      assert gs[..j][k].item == item && Last(gs[..j][k]).Done?;
    }
    forall j, item | 0 <= j < |gs| && Transmits(gs[j].item.w.op) && item in Items(Plan(a)) && !Transmits(item.w.op)
      ensures Rank(item.w.op) < Rank(gs[j].item.w.op)
    {
      TransmittingIsLast(gs[j].item.w.op);
      TransmittingIsLast(item.w.op);
    }
  }

  /** Every reply in a trace is what the backend answered to that write, given all it had been
      sent before. */
  predicate Honest(before: seq<Sent>, after: seq<Sent>, answer: Answers) {
    before <= after && forall k :: |before| <= k < |after| ==> after[k].r == answer(after[..k], after[k].w)
  }

  lemma {:induction false} RunHonest(slots: seq<Slot>, log: seq<Sent>, answer: Answers)
    ensures Honest(log, log + Writes(Run(slots, log, answer).0), answer)
    decreases |slots|
  {
    if slots == [] {
      assert log + [] == log;
    } else if slots[0].None? {
      RunHonest(slots[1..], log, answer);
    } else {
      var g := Tried(slots[0].value, log, answer);
      TriedHonest(slots[0].value, log, answer);
      hide Tried;
      if Last(g).Done? {
        RunHonest(slots[1..], log + g.sent, answer);
        var gs := Run(slots[1..], log + g.sent, answer).0;
        assert ([g] + gs)[1..] == gs && log + g.sent + Writes(gs) == log + (g.sent + Writes(gs));
        HonestThen(log, log + g.sent, log + g.sent + Writes(gs), answer);
      } else {
        assert [g][1..] == [] && g.sent + [] == g.sent;
      }
    }
  }

  lemma TriedHonest(item: Item, log: seq<Sent>, answer: Answers)
    ensures Honest(log, log + Tried(item, log, answer).sent, answer)
  {
    var g := Tried(item, log, answer);
    var all := log + g.sent;
    assert all[..|log|] == log;
    if |g.sent| == 2 { assert all[..|log| + 1] == log + [g.sent[0]]; }
  }

  lemma HonestThen(a: seq<Sent>, b: seq<Sent>, c: seq<Sent>, answer: Answers)
    requires Honest(a, b, answer) && Honest(b, c, answer)
    ensures Honest(a, c, answer)
  {
    forall k | |a| <= k < |c| ensures c[k].r == answer(c[..k], c[k].w) {
      if k < |b| { assert c[..k] == b[..k] && c[k] == b[k]; }
    }
  }

  /** So it is for a whole transaction. */
  lemma TraceHonest(a: Ask, answer: Answers, before: seq<Sent>, after: seq<Sent>, err: Reply)
    requires Did(Plan(a), answer, before, after, err)
    ensures Honest(before, after, answer)
  {
    hide Plan, Honest, Writes, Run;
    RunHonest(Plan(a), before, answer);
  }

  lemma TransmittingIsLast(op: Op)
    ensures Transmits(op) <==> Rank(op) >= 33
  {}

  // ---- what the items say ----

  lemma {:induction false} ItemsAreSlots(slots: seq<Slot>)
    ensures forall item :: item in Items(slots) <==> Some(item) in slots
  {
    if slots != [] {
      ItemsAreSlots(slots[1..]);
      assert forall x :: x in slots <==> x == slots[0] || x in slots[1..];
    }
  }

  /** What the rules say of one write. */
  predicate InRules(w: Write, s: Station) {
    && (IsFrequency(w.op) ==> w.arg.Hz? && AllowsFrequency(s.limits, w.arg.hz))
    && (w.op.SetPower? ==> w.arg.PowerArg? && WithinLimits(w.arg.power, s.limits, s.caps.maxPowerW))
  }

  /** Only a mode may have a second try, the same mode without a data flag the request never
      mentioned. */
  predicate RetryNarrow(item: Item, r: Request) {
    item.retry.Some? ==>
      && IsMode(item.w.op) && item.retry.value.op == item.w.op && r.dataMode.None?
      && match (item.w.arg, item.retry.value.arg) {
           case (ModeArg(m, d), ModeArg(m', d')) => m == m' && d && !d'
           case (VfoModeArg(v, m, d, k), VfoModeArg(v', m', d', k')) => v == v' && m == m' && k == k' && d && !d'
           case _ => false
         }
  }

  predicate GoodSlot(slot: Slot, r: Request, s: Station) {
    slot.Some? ==> InRules(slot.value.w, s) && RetryNarrow(slot.value, r)
  }

  predicate GoodSlots(slots: seq<Slot>, r: Request, s: Station) {
    forall k :: 0 <= k < |slots| ==> GoodSlot(slots[k], r, s)
  }

  // A write that is neither a frequency nor a power, and has no second try.
  lemma PlainGood(slot: Slot, r: Request, s: Station)
    requires slot.Some? ==> slot.value.retry.None? && !IsFrequency(slot.value.w.op) && !slot.value.w.op.SetPower?
    ensures GoodSlot(slot, r, s)
  {}

  lemma ModeGood(named: Option<(Vfo, int)>, m: ModePair, r: Request, s: Station)
    ensures GoodSlot(Some(ModeItem(named, m, r.dataMode.Some?)), r, s)
  {
    hide AllowsFrequency, WithinLimits;
  }

  lemma FrequencyGood(op: Op, a: Ask, s: Station)
    requires Legal(a.r, s) && a.r.frequency.Some? && IsFrequency(op)
    ensures GoodSlot(Some(Item(Write(op, Hz(a.r.vfo, a.r.frequency.value)), None)), a.r, s)
  {
    hide AllowsFrequency, WithinLimits, ClampPower, FrontEndLegal, NoiseLegal, TxAudioLegal, TransmitLegal;
  }

  lemma PowerGood(a: Ask, s: Station)
    requires Legal(a.r, s) && a.power == PowerFor(a.r, s) && a.r.power.Some?
    ensures GoodSlot(Some(Item(Write(SetPower, PowerArg(a.power)), None)), a.r, s)
  {
    ClampedWithinLimits(a.r.power.value, s.caps, s.limits);
    hide AllowsFrequency, WithinLimits, ClampPower, FrontEndLegal, NoiseLegal, TxAudioLegal, TransmitLegal, TuningLegal;
  }

  lemma OpeningGood(a: Ask, s: Station)
    requires Legal(a.r, s)
    ensures GoodSlots(OpeningSlots(a), a.r, s) && GoodSlots(NamedSlots(a), a.r, s)
  {
    hide GoodSlot, Legal, Wanted, VfoCached, ModeItem;
    var o := OpeningSlots(a);
    PlainGood(o[0], a.r, s);
    PlainGood(o[1], a.r, s);
    PlainGood(None, a.r, s);
    ModeGood(Some((a.r.vfo, FilterSlot(a.r))), Wanted(a.r, VfoCached(a.cached, a.r.vfo)), a.r, s);
    if a.r.frequency.Some? { FrequencyGood(SetVfoFrequency, a, s); }
  }

  lemma TuningGood(a: Ask, s: Station)
    requires Legal(a.r, s) && a.power == PowerFor(a.r, s)
    ensures GoodSlots(TuningSlots(a), a.r, s)
  {
    hide GoodSlot, Legal, Wanted, ModeItem, PowerFor, OfNum;
    PlainGood(None, a.r, s);
    ModeGood(None, Wanted(a.r, a.cached.current), a.r, s);
    if a.r.frequency.Some? { FrequencyGood(SetFrequency, a, s); }
    PlainGood(OfNum(SetFilterSlot, a.r.filterSlot), a.r, s);
    PlainGood(OfNum(SetFilterWidth, a.r.filterWidthHz), a.r, s);
    if a.r.power.Some? { PowerGood(a, s); }
  }

  lemma AllPlain(slots: seq<Slot>, r: Request, s: Station)
    requires forall k :: 0 <= k < |slots| && slots[k].Some? ==>
      slots[k].value.retry.None? && !IsFrequency(slots[k].value.w.op) && !slots[k].value.w.op.SetPower?
    ensures GoodSlots(slots, r, s)
  {
    hide GoodSlot;
    forall k | 0 <= k < |slots| ensures GoodSlot(slots[k], r, s) { PlainGood(slots[k], r, s); }
  }

  lemma RestGood(a: Ask, s: Station)
    ensures GoodSlots(FrontEndSlots(a), a.r, s) && GoodSlots(TxAudioSlots(a), a.r, s)
  {
    hide OfNum, OfReal, OfFlag, OfAgc, GoodSlots;
    AllPlain(FrontEndSlots(a), a.r, s);
    AllPlain(TxAudioSlots(a), a.r, s);
  }

  lemma KeyingGood(a: Ask, s: Station)
    ensures GoodSlots(KeyingSlots(a), a.r, s)
  {
    hide OfFlag, OfName, GoodSlots;
    AllPlain(KeyingSlots(a), a.r, s);
  }

  lemma NoiseGood(a: Ask, s: Station)
    ensures GoodSlots(NoiseSlots(a), a.r, s)
  {
    hide OfNum, OfReal, OfFlag, OfName, GoodSlots;
    AllPlain(NoiseSlots(a), a.r, s);
  }

  lemma GoodConcat(x: seq<Slot>, y: seq<Slot>, r: Request, s: Station)
    requires GoodSlots(x, r, s) && GoodSlots(y, r, s)
    ensures GoodSlots(x + y, r, s)
  {
    hide GoodSlot;
  }

  /** Every frequency written is in band, every power within both limits, and only a mode write
      has a second try. */
  lemma PlanInRules(a: Ask, s: Station)
    requires Legal(a.r, s) && a.power == PowerFor(a.r, s)
    ensures forall item :: item in Items(Plan(a)) ==> InRules(item.w, s) && RetryNarrow(item, a.r)
  {
    hide *;
    OpeningGood(a, s);
    TuningGood(a, s);
    RestGood(a, s);
    KeyingGood(a, s);
    NoiseGood(a, s);
    GoodConcat(OpeningSlots(a), NamedSlots(a), a.r, s);
    GoodConcat(OpeningSlots(a) + NamedSlots(a), TuningSlots(a), a.r, s);
    GoodConcat(OpeningSlots(a) + NamedSlots(a) + TuningSlots(a), FrontEndSlots(a), a.r, s);
    GoodConcat(OpeningSlots(a) + NamedSlots(a) + TuningSlots(a) + FrontEndSlots(a), NoiseSlots(a), a.r, s);
    GoodConcat(OpeningSlots(a) + NamedSlots(a) + TuningSlots(a) + FrontEndSlots(a) + NoiseSlots(a), TxAudioSlots(a), a.r, s);
    GoodConcat(OpeningSlots(a) + NamedSlots(a) + TuningSlots(a) + FrontEndSlots(a) + NoiseSlots(a) + TxAudioSlots(a), KeyingSlots(a), a.r, s);
    PlanIs(a);
    GoodItems(Plan(a), a.r, s);
  }

  lemma GoodItems(slots: seq<Slot>, r: Request, s: Station)
    requires GoodSlots(slots, r, s)
    ensures forall item :: item in Items(slots) ==> InRules(item.w, s) && RetryNarrow(item, r)
  {
    hide InRules, RetryNarrow, Items;
    ItemsAreSlots(slots);
    forall item | item in Items(slots) ensures InRules(item.w, s) && RetryNarrow(item, r) {
      var k :| 0 <= k < |slots| && slots[k] == Some(item);
      assert InRules(slots[k].value.w, s) && RetryNarrow(slots[k].value, r);
    }
  }

  // ---- at most once, by whichever path ----

  /** The frequency write a request that names one leads to. */
  function FrequencyItem(r: Request): Item
    requires r.frequency.Some?
  {
    Item(Write(if NamesVfo(r) then SetVfoFrequency else SetFrequency, Hz(r.vfo, r.frequency.value)), None)
  }

  /** A write that moves the filter slot: on its own, or with a named VFO's mode. Slot 0 in the
      latter keeps the filter the VFO has. */
  predicate CarriesSlot(w: Write) {
    w.op.SetFilterSlot? || (w.op.SetVfoMode? && (w.arg.VfoModeArg? ==> w.arg.slot != 0))
  }

  function SlotItem(a: Ask): Item
    requires a.r.filterSlot.Some?
  {
    if NamesVfo(a.r) && ModeAsked(a.r) then
      ModeItem(Some((a.r.vfo, a.r.filterSlot.value)), Wanted(a.r, VfoCached(a.cached, a.r.vfo)), a.r.dataMode.Some?)
    else Item(Write(SetFilterSlot, Num(a.r.filterSlot.value)), None)
  }

  lemma {:induction false} PlacedAt(slots: seq<Slot>, base: nat, k: nat)
    requires Placed(slots, base) && k < |slots|
    ensures slots[k].Some? ==> Rank(slots[k].value.w.op) == base + k
    decreases |slots|
  {
    hide Rank;
    if k > 0 { PlacedAt(slots[1..], base + 1, k - 1); }
  }

  /** What a plan holds stands at its operation's place. */
  lemma ItemAt(a: Ask, item: Item)
    requires item in Items(Plan(a))
    ensures |Plan(a)| == 35 && Rank(item.w.op) < 35 && Plan(a)[Rank(item.w.op)] == Some(item)
  {
    hide Rank, Plan, Items;
    PlanPlaced(a);
    ItemsAreSlots(Plan(a));
    var k :| 0 <= k < |Plan(a)| && Plan(a)[k] == Some(item);
    PlacedAt(Plan(a), 0, k);
  }

  lemma PlanTuning(a: Ask)
    ensures |Plan(a)| == 35
    ensures Plan(a)[2] == NamedSlots(a)[0] && Plan(a)[3] == NamedSlots(a)[1]
    ensures Plan(a)[5] == TuningSlots(a)[1] && Plan(a)[6] == TuningSlots(a)[2]
  {
    hide Plan, Wanted, ModeItem, OfNum;
    PlanPlaced(a);
    assert forall k :: 2 <= k < 9 ==> Plan(a)[2..9][k - 2] == Plan(a)[k];
    assert Plan(a)[2..9][0] == Plan(a)[2] && Plan(a)[2..9][1] == Plan(a)[3];
    assert Plan(a)[2..9][3] == Plan(a)[5] && Plan(a)[2..9][4] == Plan(a)[6];
  }

  lemma TuningRanks()
    ensures Rank(SetVfoMode) == 2 && Rank(SetVfoFrequency) == 3 && Rank(SetFrequency) == 5 && Rank(SetFilterSlot) == 6
  {}

  /** In a plan there is one frequency write if a frequency was asked for, and none otherwise. */
  lemma OneFrequency(a: Ask, item: Item)
    ensures item in Items(Plan(a)) && IsFrequency(item.w.op) ==> a.r.frequency.Some? && item == FrequencyItem(a.r)
    ensures a.r.frequency.Some? ==> FrequencyItem(a.r) in Items(Plan(a))
  {
    hide Plan, Items, Wanted, VfoCached, ModeItem, OfNum, Rank;
    TuningRanks();
    PlanTuning(a);
    ItemsAreSlots(Plan(a));
    if item in Items(Plan(a)) && IsFrequency(item.w.op) { ItemAt(a, item); }
    assert Plan(a)[3] in Plan(a) && Plan(a)[5] in Plan(a);
  }

  /** And one write that moves the filter slot if a slot was asked for, and none otherwise. */
  lemma OneSlot(a: Ask, item: Item)
    requires a.r.filterSlot != Some(0)
    ensures item in Items(Plan(a)) && CarriesSlot(item.w) ==> a.r.filterSlot.Some? && item == SlotItem(a)
    ensures a.r.filterSlot.Some? ==> SlotItem(a) in Items(Plan(a))
  {
    hide Plan, Items, Wanted, VfoCached, Rank;
    TuningRanks();
    PlanTuning(a);
    ItemsAreSlots(Plan(a));
    if item in Items(Plan(a)) && CarriesSlot(item.w) { ItemAt(a, item); }
    assert Plan(a)[2] in Plan(a) && Plan(a)[6] in Plan(a);
  }

  lemma LegalSlot(r: Request, s: Station)
    requires Legal(r, s)
    ensures r.filterSlot != Some(0)
  {}

  /** On the wire of a legal request a frequency is written at most once and the filter slot moved
      by at most one group, whichever path they take; and if nothing failed, what was asked for has
      been done exactly so. */
  lemma OnceOnTheWire(a: Ask, s: Station, gs: seq<Group>, err: Reply)
    requires Legal(a.r, s) && Lawful(gs, Items(Plan(a)), err)
    ensures forall i, j :: 0 <= i <= j < |gs| && IsFrequency(gs[i].item.w.op) && IsFrequency(gs[j].item.w.op) ==> i == j
    ensures forall i, j :: 0 <= i <= j < |gs| && CarriesSlot(gs[i].item.w) && CarriesSlot(gs[j].item.w) ==> i == j
    ensures forall i :: 0 <= i < |gs| && IsFrequency(gs[i].item.w.op) ==>
      a.r.frequency.Some? && |gs[i].sent| == 1 && gs[i].sent[0].w == FrequencyItem(a.r).w
    ensures err.Done? && a.r.frequency.Some? ==> Achieved(gs, FrequencyItem(a.r))
    ensures err.Done? && a.r.filterSlot.Some? ==> Achieved(gs, SlotItem(a))
  {
    LegalSlot(a.r, s);
    hide Plan, Items, Legal, IsFrequency, CarriesSlot, Rank, SlotItem, Last;
    ItemsOfAt(gs);
    forall i | 0 <= i < |gs|
      ensures IsFrequency(gs[i].item.w.op) ==> a.r.frequency.Some? && gs[i].item == FrequencyItem(a.r)
      ensures CarriesSlot(gs[i].item.w) ==> a.r.filterSlot.Some? && gs[i].item == SlotItem(a)
    {
      assert gs[i].item == Items(Plan(a))[i];
      OneFrequency(a, gs[i].item);
      OneSlot(a, gs[i].item);
    }
    forall i, j | 0 <= i <= j < |gs| && gs[i].item == gs[j].item ensures i == j {
      PlanOrdered(a);
      AscendingPair(Items(Plan(a)), 0, i, j);
    }
    if err.Done? {
      if a.r.frequency.Some? { AllAchieved(a, gs, err, FrequencyItem(a.r)); OneFrequency(a, FrequencyItem(a.r)); }
      if a.r.filterSlot.Some? { AllAchieved(a, gs, err, SlotItem(a)); OneSlot(a, SlotItem(a)); }
    }
  }

  lemma AllAchieved(a: Ask, gs: seq<Group>, err: Reply, item: Item)
    requires Lawful(gs, Items(Plan(a)), err) && err.Done?
    ensures item in Items(Plan(a)) ==> Achieved(gs, item)
  {
    hide Plan, Items, Last, Shaped;
    ItemsOfAt(gs);
    if item in Items(Plan(a)) {
      var k :| 0 <= k < |gs| && ItemsOf(gs)[k] == item;
      assert gs[k].item == item && Last(gs[k]).Done?;
    }
  }

  // ---- what the backend must be able to do ----

  predicate IsNoise(op: Op) {
    || op.SetNoiseBlanker? || op.SetNbLevel? || op.SetNoiseReduction? || op.SetNrLevel?
    || op.SetAutoNotch? || op.SetNotch? || op.SetNotchWidth? || op.SetNotchFreq?
  }

  /** An operation that is sent through an optional interface needs the backend to have it. */
  predicate Supported(op: Op, b: Backend) {
    && (op.SetVfoMode? || op.SetVfoFrequency? || op.SetSplit? || op.SetDualWatch? ==> b.dualVfo)
    && (op.SetBreakIn? ==> b.breakIn)
    && (op.SetTuner? || op.StartTune? ==> b.tuner)
    && (op.ExchangeBands? ==> b.bandExchanger)
    && (op.SelectVfoMode? ==> b.vfoModeSelector)
    && (op.SetAttenuator? || op.SetPreamp? || op.SetAgc? || op.SetRfGain? ==> b.frontEnd)
    && (op.SetIpPlus? || op.SetDigiSel? || op.SetDigiSelShift? ==> b.preselect)
    && (IsNoise(op) ==> b.noise)
    && (op.SetAntenna? || op.SetRxAntenna? ==> b.antenna)
    && (op.SetTxAudioGain? || op.SetProc? || op.SetProcLevel? ==> b.txAudio)
  }

  predicate SlotsSupported(slots: seq<Slot>, b: Backend) {
    forall k :: 0 <= k < |slots| ==> SlotSupported(slots[k], b)
  }

  predicate SlotSupported(slot: Slot, b: Backend) { slot.Some? ==> Supported(slot.value.w.op, b) }

  lemma Through(slot: Slot, op: Op, b: Backend)
    requires slot.Some? ==> slot.value.w.op == op && Supported(op, b)
    ensures SlotSupported(slot, b)
  {
    hide Supported;
  }

  /** What the capabilities promise and nothing checks against the backend. */
  predicate Backed(r: Request, b: Backend) {
    && (r.split.Some? || r.dualWatch.Some? ==> b.dualVfo)
    && (r.breakIn.Some? ==> b.breakIn)
    && (r.tuner.Some? || r.tunerTune.Some? ==> b.tuner)
  }

  lemma OpeningSupported(a: Ask, s: Station)
    requires Legal(a.r, s)
    ensures SlotsSupported(OpeningSlots(a), s.backend)
  {
    hide ClampPower, AllowsFrequency, TransmitLegal, FrontEndLegal, NoiseLegal, TxAudioLegal;
    var slots := OpeningSlots(a);
    Through(slots[0], ExchangeBands, s.backend);
    Through(slots[1], SelectVfoMode, s.backend);
    hide SlotSupported;
  }

  lemma NamedSupported(a: Ask, s: Station)
    requires Legal(a.r, s)
    ensures SlotsSupported(NamedSlots(a), s.backend)
  {
    hide ClampPower, AllowsFrequency, TransmitLegal, FrontEndLegal, NoiseLegal, TxAudioLegal, TuningLegal, Wanted, VfoCached;
    var slots := NamedSlots(a);
    Through(slots[0], SetVfoMode, s.backend);
    Through(slots[1], SetVfoFrequency, s.backend);
    hide SlotSupported;
  }

  lemma TuningSupported(a: Ask, s: Station)
    requires Legal(a.r, s)
    ensures SlotsSupported(TuningSlots(a), s.backend)
  {
    hide Legal, Wanted, OfNum;
    var slots := TuningSlots(a);
    Through(slots[0], SetMode, s.backend);
    Through(slots[1], SetFrequency, s.backend);
    Through(slots[2], SetFilterSlot, s.backend);
    Through(slots[3], SetFilterWidth, s.backend);
    Through(slots[4], SetPower, s.backend);
    hide SlotSupported;
  }

  lemma FrontEndNeeds(op: Op, b: Backend)
    ensures 9 <= Rank(op) < 16 ==> Supported(op, b) == if 11 <= Rank(op) < 14 then b.preselect else b.frontEnd
  {}

  lemma FrontEndAsked(a: Ask)
    ensures var slots := FrontEndSlots(a);
      forall k :: 0 <= k < 7 && slots[k].Some? ==>
        if 2 <= k < 5 then a.r.ipPlus.Some? || a.r.digiSel.Some? || a.r.digiSelShift.Some?
        else a.r.preamp.Some? || a.r.attenuatorDb.Some? || a.r.rfGain.Some? || a.r.agc.Some?
  {
    hide OfNum, OfReal, OfFlag, OfAgc;
  }

  lemma FrontEndSupported(a: Ask, s: Station)
    requires FrontEndLegal(a.r, s)
    ensures SlotsSupported(FrontEndSlots(a), s.backend)
  {
    FrontEndPlaced(a);
    FrontEndAsked(a);
    hide FrontEndSlots, Rank, Supported, Placed, Level, Percent, Settable;
    var slots := FrontEndSlots(a);
    forall k | 0 <= k < |slots| ensures SlotSupported(slots[k], s.backend) {
      PlacedAt(slots, 9, k);
      if slots[k].Some? { FrontEndNeeds(slots[k].value.w.op, s.backend); }
    }
  }

  lemma NoiseNeeds(op: Op, b: Backend)
    ensures 16 <= Rank(op) < 24 ==> Supported(op, b) == b.noise
    ensures 24 <= Rank(op) < 26 ==> Supported(op, b) == b.antenna
  {}

  lemma NoiseAsked(a: Ask)
    ensures var slots := NoiseSlots(a);
      forall k :: 0 <= k < 10 && slots[k].Some? ==> if k < 8 then NoiseRequested(a.r) else a.r.antenna.Some? || a.r.rxAntenna.Some?
  {
    hide OfNum, OfReal, OfFlag, OfName;
  }

  lemma NoiseSupported(a: Ask, s: Station)
    requires NoiseLegal(a.r, s)
    ensures SlotsSupported(NoiseSlots(a), s.backend)
  {
    NoisePlaced(a);
    NoiseAsked(a);
    hide NoiseSlots, Rank, Supported, NoiseRequested, Placed;
    var slots := NoiseSlots(a);
    forall k | 0 <= k < |slots| ensures SlotSupported(slots[k], s.backend) {
      PlacedAt(slots, 16, k);
      if slots[k].Some? { NoiseNeeds(slots[k].value.w.op, s.backend); }
    }
  }

  lemma TxAudioSupported(a: Ask, s: Station)
    requires TxAudioLegal(a.r, s)
    ensures SlotsSupported(TxAudioSlots(a), s.backend)
  {
    hide OfReal, OfFlag, Percent;
    var slots := TxAudioSlots(a);
    Through(slots[0], SetTxAudioGain, s.backend);
    Through(slots[1], SetProc, s.backend);
    Through(slots[2], SetProcLevel, s.backend);
    hide SlotSupported;
  }

  lemma KeyingNeeds(b: Backend)
    ensures Supported(SetBreakIn, b) == b.breakIn && Supported(SetPtt, b)
    ensures Supported(SetSplit, b) == b.dualVfo && Supported(SetDualWatch, b) == b.dualVfo
    ensures Supported(SetTuner, b) == b.tuner && Supported(StartTune, b) == b.tuner
  {}

  lemma KeyingSupported(a: Ask, b: Backend)
    ensures SlotsSupported(KeyingSlots(a), b) <==> Backed(a.r, b)
  {
    KeyingNeeds(b);
    hide OfFlag, OfName, Supported;
    var slots := KeyingSlots(a);
    assert SlotsSupported(slots, b) ==>
      && SlotSupported(slots[0], b) && SlotSupported(slots[1], b) && SlotSupported(slots[2], b)
      && SlotSupported(slots[3], b) && SlotSupported(slots[5], b);
  }

  lemma SupportedConcat(x: seq<Slot>, y: seq<Slot>, b: Backend)
    ensures SlotsSupported(x + y, b) <==> SlotsSupported(x, b) && SlotsSupported(y, b)
  {
    hide SlotSupported;
    var z := x + y;
    assert forall k :: 0 <= k < |x| ==> z[k] == x[k];
    assert forall k :: 0 <= k < |y| ==> z[|x| + k] == y[k];
  }

  lemma SupportedItems(slots: seq<Slot>, b: Backend)
    ensures SlotsSupported(slots, b) <==> forall item :: item in Items(slots) ==> Supported(item.w.op, b)
  {
    hide Supported, Items;
    ItemsAreSlots(slots);
    if SlotsSupported(slots, b) {
      forall item | item in Items(slots) ensures Supported(item.w.op, b) {
        var k :| 0 <= k < |slots| && slots[k] == Some(item);
        assert SlotSupported(slots[k], b);
      }
    }
    if forall item :: item in Items(slots) ==> Supported(item.w.op, b) {
      forall k | 0 <= k < |slots| ensures SlotSupported(slots[k], b) {
        if slots[k].Some? { assert Some(slots[k].value) in slots; }
      }
    }
  }

  /** A legal request is sent only through interfaces the backend has, exactly when the backend has
      those that split, dual watch, break-in and the tuner need: for these the capabilities are
      checked and the interface is not, and the call would go through a nil one. */
  lemma PlanSupported(a: Ask, s: Station)
    requires Legal(a.r, s)
    ensures (forall item :: item in Items(Plan(a)) ==> Supported(item.w.op, s.backend)) <==> Backed(a.r, s.backend)
  {
    LegalParts(a.r, s);
    hide *;
    OpeningSupported(a, s);
    NamedSupported(a, s);
    TuningSupported(a, s);
    FrontEndSupported(a, s);
    NoiseSupported(a, s);
    TxAudioSupported(a, s);
    KeyingSupported(a, s.backend);
    SupportedConcat(OpeningSlots(a), NamedSlots(a), s.backend);
    SupportedConcat(OpeningSlots(a) + NamedSlots(a), TuningSlots(a), s.backend);
    SupportedConcat(OpeningSlots(a) + NamedSlots(a) + TuningSlots(a), FrontEndSlots(a), s.backend);
    SupportedConcat(OpeningSlots(a) + NamedSlots(a) + TuningSlots(a) + FrontEndSlots(a), NoiseSlots(a), s.backend);
    SupportedConcat(OpeningSlots(a) + NamedSlots(a) + TuningSlots(a) + FrontEndSlots(a) + NoiseSlots(a), TxAudioSlots(a), s.backend);
    SupportedConcat(OpeningSlots(a) + NamedSlots(a) + TuningSlots(a) + FrontEndSlots(a) + NoiseSlots(a) + TxAudioSlots(a), KeyingSlots(a), s.backend);
    PlanIs(a);
    SupportedItems(Plan(a), s.backend);
  }

  lemma LegalParts(r: Request, s: Station)
    requires Legal(r, s)
    ensures FrontEndLegal(r, s) && NoiseLegal(r, s) && TxAudioLegal(r, s)
  {}

  function NoRequest(): Request {
    Request(VfoCurrent, None, None, None, None, None, None, None, None, None, None, None, None, None, None,
            None, None, None, None, None, None, None, None, None, None, None, None, None, None, None, None, None, None, None, None)
  }

  /** A radio that says it can split and can break in, on a backend with no optional interface. */
  function BareStation(): Station {
    Station(Caps([], [], 0, false, false, false, false, 0.0, true, false, false, false, true, false,
                 0, [], false, [], false, false, false, 0, false, 0, false, false, false, [], false, false, 0, false, false, false, false),
            Backend(false, false, false, false, false, false, false, false, false, false), Limits(0.0, 0.0, []), 0)
  }

  /** Switching split on such a radio is legal, and is written through an interface it has not. */
  lemma UnsupportedExample(cached: Cached)
    ensures var a := Ask(NoRequest().(split := Some(true)), cached, PowerSet(None, None));
      && Legal(a.r, BareStation())
      && exists item :: item in Items(Plan(a)) && !Supported(item.w.op, BareStation().backend)
  {
    var a := Ask(NoRequest().(split := Some(true)), cached, PowerSet(None, None));
    assert Legal(a.r, BareStation()) && !Backed(a.r, BareStation().backend);
    hide Legal, Backed, Plan, Items, Supported;
    PlanSupported(a, BareStation());
  }
}

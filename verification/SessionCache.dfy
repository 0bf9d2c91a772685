/** The single writer path into a session's state cache, and the transmit dead-man timer it
    drives (internal/rig/session.go, internal/rig/supervisor.go). An update and its side effects
    are one step. */
module SessionCache {
  import opened Basics
  import opened RadioState
  import opened Events

  // An armed timer; fired says its goroutine has started but has not got as far as ForceRX.
  datatype Timer = Timer(id: nat, due: int, fired: bool)

  datatype Cache = Cache(
    state: State, num: nat, deadman: Option<Timer>, armed: nat, lastArm: int, log: seq<Event>)

  function Arm(c: Cache, now: int, timeout: int): Cache {
    if timeout <= 0 then c
    else c.(deadman := Some(Timer(c.armed, now + timeout, false)), armed := c.armed + 1, lastArm := now)
  }

  function Disarm(c: Cache): Cache { c.(deadman := None) }

  function Interlocked(c: Cache, changed: Patch, now: int, timeout: int): Cache {
    if Ptt !in changed then c else if changed[Ptt] == Flag(true) then Arm(c, now, timeout) else Disarm(c)
  }

  /** One update: stored always, numbered and published only if it changed something. */
  function Update(c: Cache, radio: Id, p: Patch, kind: Kind, reason: string, now: int, timeout: int): Cache {
    if p == map[] then c
    else
      var next := RadioState.Apply(c.state, p);
      var changed := Diff(c.state, next);
      if changed == map[] then c.(state := next)
      else
        var ev := Event(kind, radio, c.num + 1, now, next, changed, reason, 0);
        Interlocked(c.(state := next, num := c.num + 1, log := c.log + [ev]), changed, now, timeout)
  }

  function WithCW(s: State, v: Value): State { f => if f == CW then v else s(f) }

  /** The CW queue's status is not part of an update and has its own way in. */
  function Refresh(c: Cache, radio: Id, v: Value, now: int): Cache {
    if c.state(CW) == v then c
    else
      var next := WithCW(c.state, v);
      c.(state := next, num := c.num + 1, log := c.log + [Event(CwKind, radio, c.num + 1, now, next, map[CW := v], "", 0)])
  }

  class Session {
    var state: State
    var num: nat
    var deadman: Option<Timer>
    var armed: nat
    var lastArm: int
    var published: seq<Event>
    const id: Id
    const timeout: int

    ghost function View(): Cache reads this { Cache(state, num, deadman, armed, lastArm, published) }

    constructor (id: Id, timeout: int)
      ensures this.id == id && this.timeout == timeout
      ensures View() == Cache(Rest(), 0, None, 0, 0, [])
    {
      this.id, this.timeout := id, timeout;
      state, num, deadman, armed, lastArm, published := Rest(), 0, None, 0, 0, [];
    }

    method Apply(p: Patch, kind: Kind, reason: string, now: int)
      modifies this
      ensures View() == Update(old(View()), id, p, kind, reason, now, timeout)
    {
      hide RadioState.Apply, InDiff, Diff, Arm, Disarm;
      if p == map[] { return; }
      var next := RadioState.Apply(state, p);
      var changed := Diff(state, next);
      if changed != map[] { num := num + 1; }
      state := next;
      if changed == map[] { return; }
      published := published + [Event(kind, id, num, now, next, changed, reason, 0)];
      if Ptt in changed {
        if changed[Ptt] == Flag(true) { ArmDeadman(now); } else { DisarmDeadman(); }
      }
    }

    method RefreshCW(v: Value, now: int)
      modifies this
      ensures View() == Refresh(old(View()), id, v, now)
    {
      if state(CW) == v { return; }
      state := WithCW(state, v);
      num := num + 1;
      published := published + [Event(CwKind, id, num, now, state, map[CW := v], "", 0)];
    }

    method ArmDeadman(now: int)
      modifies this`deadman, this`armed, this`lastArm
      ensures View() == Arm(old(View()), now, timeout)
    {
      if timeout <= 0 { return; }
      deadman := Some(Timer(armed, now + timeout, false));
      armed, lastArm := armed + 1, now;
    }

    method DisarmDeadman()
      modifies this`deadman
      ensures View() == Disarm(old(View()))
    {
      deadman := None;
    }
  }

  // ---- what is published ----

  /** s and t agree on everything a comparison looks at. */
  ghost predicate Alike(s: State, t: State) { forall f: Field :: ClassOf(f) != TxAudio ==> s(f) == t(f) }

  /** Nothing to publish means nothing changed but, perhaps, the transmit audio. */
  lemma SilentUpdate(s: State, p: Patch)
    requires ValidState(s) && MetersQuiet(s) && ValidPatch(p)
    ensures Diff(s, RadioState.Apply(s, p)) == map[] <==> Alike(s, RadioState.Apply(s, p))
  {
    var next := RadioState.Apply(s, p);
    var mp := Merged(s, p);
    ApplyValid(s, p);
    assert next(Ptt) == mp(Ptt) && Typed(Ptt, next(Ptt));
    if Diff(s, next) == map[] {
      forall f: Field ensures !InDiff(s, next, f) {
        assert f !in Diff(s, next);
      }
      assert !InDiff(s, next, Ptt) && s(Ptt) == next(Ptt);
      forall f: Field | ClassOf(f) != TxAudio ensures s(f) == next(f) {
        assert !InDiff(s, next, f);
        if IsMeter(f) {
          assert next(f) == if Transmitting(mp) then mp(f) else Absent;
        } else {
          assert next(f) == mp(f) && Typed(f, next(f));
        }
      }
    }
  }

  /** Numbers run 1, 2, 3 without a gap, and the last event tells all there is to tell about the
      cache but its transmit audio. */
  ghost predicate Faithful(c: Cache, start: State) {
    && ValidState(c.state) && MetersQuiet(c.state)
    && c.num == |c.log| && (forall i :: 0 <= i < |c.log| ==> c.log[i].num == i + 1 && c.log[i].patch != map[] && c.log[i].dropped == 0)
    && Alike(c.state, if c.log == [] then start else c.log[|c.log| - 1].state)
  }

  lemma InterlockFrame(c: Cache, changed: Patch, now: int, timeout: int)
    ensures var d := Interlocked(c, changed, now, timeout); d.state == c.state && d.num == c.num && d.log == c.log
  {}

  lemma UpdateFaithful(c: Cache, start: State, radio: Id, p: Patch, kind: Kind, reason: string, now: int, timeout: int)
    requires Faithful(c, start) && ValidPatch(p)
    ensures Faithful(Update(c, radio, p, kind, reason, now, timeout), start)
  {
    hide Diff, RadioState.Apply, ValidState, MetersQuiet, ValidPatch, Interlocked;
    if p != map[] {
      var next := RadioState.Apply(c.state, p);
      var changed := Diff(c.state, next);
      ApplyValid(c.state, p);
      SilentUpdate(c.state, p);
      if changed != map[] {
        var ev := Event(kind, radio, c.num + 1, now, next, changed, reason, 0);
        InterlockFrame(c.(state := next, num := c.num + 1, log := c.log + [ev]), changed, now, timeout);
      }
    }
  }

  lemma RefreshFaithful(c: Cache, start: State, radio: Id, v: Value, now: int)
    requires Faithful(c, start) && Typed(CW, v)
    ensures Faithful(Refresh(c, radio, v, now), start)
  {
    var next := WithCW(c.state, v);
    assert next(Ptt) == c.state(Ptt);
    forall f: Field ensures Typed(f, next(f)) && (f != CW ==> next(f) == c.state(f)) {}
    assert ClassOf(CW) == Plain;
    assert CW in map[CW := v];
    hide ClassOf;
  }

  // ---- the dead-man timer ----

  // pending are fired timers whose ForceRX has not begun; forced says ForceRX has been called
  // since PTT last went up; dropping marks the moment between the two halves of a disconnection.
  datatype World = World(c: Cache, now: int, pending: set<nat>, forced: bool, dropping: bool, open: bool)

  datatype Step =
    | Apply(p: Patch, kind: Kind, reason: string)
    | RefreshCW(v: Value)
    | StartTune
    | Tick(t: int)
    | Fire
    | FiredForceRX(id: nat)
    | ForceRX
    | LoseLink
    | PublishLoss(reason: string)
    | Close

  predicate Enabled(w: World, st: Step) {
    match st
    case Apply(p, _, _) => ValidPatch(p)
    case RefreshCW(v) => Typed(CW, v)
    case Tick(t) => w.now <= t
    case Fire => w.c.deadman.Some? && !w.c.deadman.value.fired && w.c.deadman.value.due <= w.now
    case FiredForceRX(id) => id in w.pending
    case PublishLoss(_) => w.dropping
    case _ => true
  }

  const LOST: Patch := map[Connected := Flag(false), Ptt := Flag(false)]

  function Applied(w: World, radio: Id, p: Patch, kind: Kind, reason: string, timeout: int): World {
    var c := Update(w.c, radio, p, kind, reason, w.now, timeout);
    w.(c := c, forced := if Transmitting(c.state) && !Transmitting(w.c.state) then false else w.forced)
  }

  function Next(w: World, st: Step, radio: Id, timeout: int): World {
    match st
    case Apply(p, kind, reason) => Applied(w, radio, p, kind, reason, timeout)
    case RefreshCW(v) => w.(c := Refresh(w.c, radio, v, w.now))
    case StartTune => w.(c := Arm(w.c, w.now, timeout))
    case Tick(t) => w.(now := t)
    case Fire =>
      if w.c.deadman.None? then w
      else w.(c := w.c.(deadman := Some(w.c.deadman.value.(fired := true))), pending := w.pending + {w.c.deadman.value.id})
    case FiredForceRX(id) => w.(c := Disarm(w.c), pending := w.pending - {id}, forced := true)
    case ForceRX => w.(c := Disarm(w.c), forced := true)
    case LoseLink => w.(c := Disarm(w.c), dropping := true)
    case PublishLoss(reason) => Applied(w, radio, LOST, ConnKind, reason, timeout).(dropping := false)
    case Close => w.(c := Disarm(w.c), open := false)
  }

  /** The timer runs, at its full length from the last arming, or has just fired and ForceRX is
      about to begin. */
  predicate Guarded(w: World, timeout: int) {
    && w.c.deadman.Some? && w.c.deadman.value.due == w.c.lastArm + timeout
    && (w.c.deadman.value.fired ==> w.c.deadman.value.id in w.pending)
  }

  ghost predicate Safe(w: World, timeout: int) {
    && ValidState(w.c.state)
    && (w.open && timeout > 0 && Transmitting(w.c.state) && !w.dropping ==> w.forced || Guarded(w, timeout))
  }

  lemma UpdateKeys(c: Cache, radio: Id, p: Patch, kind: Kind, reason: string, now: int, timeout: int)
    requires ValidState(c.state) && ValidPatch(p)
    ensures var d := Update(c, radio, p, kind, reason, now, timeout);
      && ValidState(d.state)
      && Transmitting(d.state) == (if Ptt in p then p[Ptt] == Flag(true) else Transmitting(c.state))
      && (Transmitting(d.state) && !Transmitting(c.state) && timeout > 0 ==>
            d.deadman == Some(Timer(c.armed, now + timeout, false)) && d.lastArm == now)
      && (Transmitting(d.state) == Transmitting(c.state) ==> d.deadman == c.deadman && d.lastArm == c.lastArm && d.armed == c.armed)
      && (!Transmitting(d.state) && Transmitting(c.state) ==> d.deadman.None?)
  {
    if p != map[] {
      var next := RadioState.Apply(c.state, p);
      ApplyValid(c.state, p);
      PttInDiff(c.state, p);
      var changed := Diff(c.state, next);
      hide RadioState.Apply, Diff, ValidState;
    }
  }

  /** Keying and unkeying are the changes that reach the timer, and the only ones. */
  lemma PttInDiff(s: State, p: Patch)
    requires ValidState(s) && ValidPatch(p)
    ensures var next := RadioState.Apply(s, p);
      var changed := Diff(s, next);
      && (Ptt in changed <==> Transmitting(next) != Transmitting(s))
      && (Ptt in changed ==> changed[Ptt] == Flag(Transmitting(next)))
      && Transmitting(next) == (if Ptt in p then p[Ptt] == Flag(true) else Transmitting(s))
  {
    var next := RadioState.Apply(s, p);
    assert next(Ptt) == Merged(s, p)(Ptt);
    assert Typed(Ptt, s(Ptt)) && (Ptt in p ==> Typed(Ptt, p[Ptt]));
    assert s(Ptt).Flag? && next(Ptt).Flag?;
    assert InDiff(s, next, Ptt) <==> s(Ptt) != next(Ptt);
  }

  lemma StepSafe(w: World, st: Step, radio: Id, timeout: int)
    requires Safe(w, timeout) && Enabled(w, st)
    ensures Safe(Next(w, st, radio, timeout), timeout)
  {
    hide Update, Refresh, ValidState, ValidPatch;
    match st
    case Apply(p, kind, reason) => UpdateKeys(w.c, radio, p, kind, reason, w.now, timeout);
    case PublishLoss(reason) =>
      LostValid();
      UpdateKeys(w.c, radio, LOST, ConnKind, reason, w.now, timeout);
    case RefreshCW(v) => RefreshKeys(w.c, radio, v, w.now);
    case _ =>
  }

  lemma LostValid()
    ensures ValidPatch(LOST)
  {
    assert ClassOf(Connected) == Plain && ClassOf(Ptt) == Plain;
  }

  lemma RefreshKeys(c: Cache, radio: Id, v: Value, now: int)
    requires ValidState(c.state) && Typed(CW, v)
    ensures var d := Refresh(c, radio, v, now);
      && ValidState(d.state) && Transmitting(d.state) == Transmitting(c.state)
      && d.deadman == c.deadman && d.lastArm == c.lastArm
  {
    var next := WithCW(c.state, v);
    forall f: Field ensures Typed(f, next(f)) {}
  }

  predicate AllEnabled(w: World, steps: seq<Step>, radio: Id, timeout: int)
    decreases |steps|
  {
    steps == [] || (Enabled(w, steps[0]) && AllEnabled(Next(w, steps[0], radio, timeout), steps[1..], radio, timeout))
  }

  function End(w: World, steps: seq<Step>, radio: Id, timeout: int): World
    decreases |steps|
  {
    if steps == [] then w else End(Next(w, steps[0], radio, timeout), steps[1..], radio, timeout)
  }

  function Begin(now: int): World { World(Cache(Rest(), 0, None, 0, 0, []), now, {}, false, false, true) }

  lemma {:induction false} RunSafe(w: World, steps: seq<Step>, radio: Id, timeout: int)
    requires Safe(w, timeout) && AllEnabled(w, steps, radio, timeout)
    ensures Safe(End(w, steps, radio, timeout), timeout)
    decreases |steps|
  {
    hide Safe, Next, Enabled;
    if steps != [] {
      StepSafe(w, steps[0], radio, timeout);
      RunSafe(Next(w, steps[0], radio, timeout), steps[1..], radio, timeout);
    }
  }

  /** The dead-man interlock. While the session is open and a timeout is configured, a cache that
      says the radio transmits has its timer running to the last arming plus the timeout, or
      ForceRX has been called since the radio went up. The one exception is the moment inside a
      disconnection between stopping the timer and publishing the loss. */
  lemma DeadmanGuards(now: int, steps: seq<Step>, radio: Id, timeout: int)
    requires timeout > 0 && AllEnabled(Begin(now), steps, radio, timeout)
    ensures var w := End(Begin(now), steps, radio, timeout);
      w.open && Transmitting(w.c.state) && !w.dropping ==> w.forced || Guarded(w, timeout)
  {
    hide AllEnabled, End;
    RestValid();
    assert !Transmitting(Rest());
    RunSafe(Begin(now), steps, radio, timeout);
  }

  // Steps that neither key the radio afresh nor start a tuning cycle.
  predicate NoRekey(steps: seq<Step>) {
    steps == [] || (!steps[0].StartTune? && (steps[0].Apply? && Ptt in steps[0].p ==> steps[0].p[Ptt] == Flag(true)) && NoRekey(steps[1..]))
  }

  /** ForceRX is one attempt. If the radio goes on transmitting after it, no timer is set again
      until the radio is next seen to stop, or a tuning cycle is started. */
  lemma {:induction false} ForcedOnce(w: World, steps: seq<Step>, radio: Id, timeout: int)
    requires ValidState(w.c.state) && w.c.deadman.None? && Transmitting(w.c.state)
    requires AllEnabled(w, steps, radio, timeout) && NoRekey(steps) && !w.dropping
    ensures var e := End(w, steps, radio, timeout);
      e.c.deadman.None? || exists i :: 0 <= i < |steps| && steps[i].LoseLink?
    decreases |steps|
  {
    hide Update, Refresh, ValidState, ValidPatch;
    if steps != [] {
      if !steps[0].LoseLink? {
        if steps[0].Apply? { UpdateKeys(w.c, radio, steps[0].p, steps[0].kind, steps[0].reason, w.now, timeout); }
        if steps[0].RefreshCW? { RefreshKeys(w.c, radio, steps[0].v, w.now); }
        ForcedNext(w, steps, radio, timeout);
      }
    }
  }

  /** That state is reached by keying a radio whose dead-man timer, or lease, then forces it to
      receive without success: transmitting, in an open session with a timeout, and no timer. */
  lemma ForcedExample(now: int, radio: Id, timeout: int)
    requires timeout > 0
    ensures var steps := [Apply(map[Ptt := Flag(true)], StateKind, ""), ForceRX];
      && AllEnabled(Begin(now), steps, radio, timeout)
      && var w := End(Begin(now), steps, radio, timeout);
         ValidState(w.c.state) && Transmitting(w.c.state) && w.open && !w.dropping && w.c.deadman.None?
  {
    var p: Patch := map[Ptt := Flag(true)];
    var steps := [Apply(p, StateKind, ""), ForceRX];
    assert ClassOf(Ptt) == Plain && ValidPatch(p);
    RestValid();
    UpdateKeys(Begin(now).c, radio, p, StateKind, "", now, timeout);
    hide Update, ValidState, ValidPatch;
    var w1 := Next(Begin(now), steps[0], radio, timeout);
    var w2 := Next(w1, ForceRX, radio, timeout);
    assert steps[1..] == [ForceRX] && [ForceRX][1..] == [];
    assert End(w1, [ForceRX], radio, timeout) == End(w2, [], radio, timeout) == w2;
    assert AllEnabled(w1, [ForceRX], radio, timeout);
  }

  lemma ForcedNext(w: World, steps: seq<Step>, radio: Id, timeout: int)
    requires steps != [] && AllEnabled(w, steps, radio, timeout) && NoRekey(steps)
    requires var m := Next(w, steps[0], radio, timeout);
      ValidState(m.c.state) && m.c.deadman.None? && Transmitting(m.c.state) && !m.dropping
    ensures var e := End(w, steps, radio, timeout);
      e.c.deadman.None? || exists i :: 0 <= i < |steps| && steps[i].LoseLink?
    decreases |steps|, 0
  {
    hide Next, Enabled, ValidState;
    ForcedOnce(Next(w, steps[0], radio, timeout), steps[1..], radio, timeout);
    if exists i :: 0 <= i < |steps| - 1 && steps[1..][i].LoseLink? {
      var i :| 0 <= i < |steps| - 1 && steps[1..][i].LoseLink?;
      assert steps[i + 1].LoseLink?;
    }
  }

  lemma StepFaithful(w: World, st: Step, radio: Id, timeout: int, start: State)
    requires Faithful(w.c, start) && Enabled(w, st)
    ensures Faithful(Next(w, st, radio, timeout).c, start)
  {
    hide Update, Refresh, Alike, ValidState, MetersQuiet, ValidPatch;
    match st
    case Apply(p, kind, reason) => UpdateFaithful(w.c, start, radio, p, kind, reason, w.now, timeout);
    case PublishLoss(reason) =>
      LostValid();
      UpdateFaithful(w.c, start, radio, LOST, ConnKind, reason, w.now, timeout);
    case RefreshCW(v) => RefreshFaithful(w.c, start, radio, v, w.now);
    case _ =>
  }

  /** Over every run the events are numbered without a gap, none is empty, and the newest one
      says everything about the cache that a comparison can see. */
  lemma {:induction false} EventsFaithful(w: World, steps: seq<Step>, radio: Id, timeout: int, start: State)
    requires Faithful(w.c, start) && AllEnabled(w, steps, radio, timeout)
    ensures Faithful(End(w, steps, radio, timeout).c, start)
    decreases |steps|
  {
    hide Faithful, Next, Enabled;
    if steps != [] {
      StepFaithful(w, steps[0], radio, timeout, start);
      EventsFaithful(Next(w, steps[0], radio, timeout), steps[1..], radio, timeout, start);
    }
  }

  /** From the start of a session, then: event k carries number k. */
  lemma EventsNumbered(now: int, steps: seq<Step>, radio: Id, timeout: int)
    requires AllEnabled(Begin(now), steps, radio, timeout)
    ensures var log := End(Begin(now), steps, radio, timeout).c.log;
      forall k :: 0 <= k < |log| ==> log[k].num == k + 1 && log[k].patch != map[] && log[k].dropped == 0
  {
    hide AllEnabled, End;
    RestValid();
    EventsFaithful(Begin(now), steps, radio, timeout, Rest());
  }

  // ---- what each step tells ----

  /** An event says which radio changed, when, to what, and why. */
  predicate Says(e: Event, w: World, m: World, radio: Id, kind: Kind, reason: string) {
    e.kind == kind && e.radio == radio && e.num == w.c.num + 1 && e.at == w.now && e.err == reason && e.dropped == 0
  }

  // A step's log: the one before it, with an event about the state it leaves if it told one.
  ghost predicate Tells(w: World, m: World, told: bool, radio: Id, kind: Kind, reason: string, patch: Patch) {
    if told then
      && m.c.num == w.c.num + 1 && |m.c.log| == |w.c.log| + 1 && w.c.log <= m.c.log
      && var e := m.c.log[|w.c.log|]; Says(e, w, m, radio, kind, reason) && e.state == m.c.state && e.patch == patch
    else m.c.log == w.c.log && m.c.num == w.c.num
  }

  /** What a step does to the cache and tells of it. An update is stored whatever it is, and told,
      under its own kind and reason, with the difference it made and the state it left, if and only
      if it made one beyond the transmit audio; a lost link is such an update, of that link and of
      a transmission it may have cut short; a CW status is told if it is a new one; and nothing
      else tells anything. */
  lemma StepTells(w: World, st: Step, radio: Id, timeout: int)
    requires ValidState(w.c.state) && MetersQuiet(w.c.state) && Enabled(w, st)
    ensures var m := Next(w, st, radio, timeout);
      match st
      case Apply(p, kind, reason) =>
        && m.c.state == (if p == map[] then w.c.state else RadioState.Apply(w.c.state, p))
        && Tells(w, m, !Alike(w.c.state, m.c.state), radio, kind, reason, Diff(w.c.state, m.c.state))
      case PublishLoss(reason) =>
        && m.c.state == RadioState.Apply(w.c.state, LOST)
        && Tells(w, m, !Alike(w.c.state, m.c.state), radio, ConnKind, reason, Diff(w.c.state, m.c.state))
      case RefreshCW(v) =>
        && m.c.state(CW) == v && (forall f: Field :: f != CW ==> m.c.state(f) == w.c.state(f))
        && Tells(w, m, w.c.state(CW) != v, radio, CwKind, "", map[CW := v])
      case _ => m.c.state == w.c.state && Tells(w, m, false, radio, StateKind, "", map[])
  {
    hide RadioState.Apply, Diff, ValidState, MetersQuiet, ValidPatch, Alike;
    match st
    case Apply(p, kind, reason) => UpdateTells(w, p, kind, reason, radio, timeout);
    case PublishLoss(reason) =>
      LostValid();
      assert Connected in LOST;
      UpdateTells(w, LOST, ConnKind, reason, radio, timeout);
    case _ =>
  }

  lemma UpdateTells(w: World, p: Patch, kind: Kind, reason: string, radio: Id, timeout: int)
    requires ValidState(w.c.state) && MetersQuiet(w.c.state) && ValidPatch(p)
    ensures var m := Applied(w, radio, p, kind, reason, timeout);
      && m.c.state == (if p == map[] then w.c.state else RadioState.Apply(w.c.state, p))
      && Tells(w, m, !Alike(w.c.state, m.c.state), radio, kind, reason, Diff(w.c.state, m.c.state))
  {
    if p != map[] {
      SilentUpdate(w.c.state, p);
      var next := RadioState.Apply(w.c.state, p);
      var changed := Diff(w.c.state, next);
      var ev := Event(kind, radio, w.c.num + 1, w.now, next, changed, reason, 0);
      InterlockFrame(w.c.(state := next, num := w.c.num + 1, log := w.c.log + [ev]), changed, w.now, timeout);
    }
    hide RadioState.Apply, Diff, ValidState, MetersQuiet, ValidPatch, Alike, Interlocked;
    if p == map[] { AlikeItself(w.c.state); }
  }

  lemma AlikeItself(s: State)
    ensures Alike(s, s)
  {}

  // ---- the timer, step by step ----

  /** A new timer, to run for the timeout from now, under a number no timer had before. */
  predicate Armed(w: World, m: World, timeout: int) {
    && m.c.deadman == Some(Timer(w.c.armed, w.now + timeout, false))
    && m.c.armed == w.c.armed + 1 && m.c.lastArm == w.now
  }

  predicate TimerKept(w: World, m: World) {
    m.c.deadman == w.c.deadman && m.c.armed == w.c.armed && m.c.lastArm == w.c.lastArm
  }

  /** What a step does to the timer: it is set, for a whole timeout, exactly when the radio is seen
      to go up or a tuning cycle starts; it is cleared when the radio is seen to stop, ForceRX is
      called, the link is lost or the session closes; and otherwise it is left alone. */
  lemma TimerMoves(w: World, st: Step, radio: Id, timeout: int)
    requires ValidState(w.c.state) && Enabled(w, st) && timeout > 0
    ensures var m := Next(w, st, radio, timeout);
      var up, down := !Transmitting(w.c.state) && Transmitting(m.c.state), Transmitting(w.c.state) && !Transmitting(m.c.state);
      && (up || st.StartTune? ==> Armed(w, m, timeout))
      && (down || st.ForceRX? || st.FiredForceRX? || st.LoseLink? || st.Close? ==> m.c.deadman.None?)
      && (st.Apply? || st.PublishLoss? ==> up || down || TimerKept(w, m))
      && (st.RefreshCW? || st.Tick? ==> TimerKept(w, m))
      && (up ==> st.Apply?) && (down ==> st.Apply? || st.PublishLoss?)
  {
    hide Update, Refresh, ValidState, ValidPatch;
    match st
    case Apply(p, kind, reason) =>
      UpdateKeys(w.c, radio, p, kind, reason, w.now, timeout);
      UpdateCounts(w.c, radio, p, kind, reason, w.now, timeout);
    case PublishLoss(reason) =>
      LostValid();
      LostStops();
      UpdateKeys(w.c, radio, LOST, ConnKind, reason, w.now, timeout);
    case RefreshCW(v) => RefreshTimer(w.c, radio, v, w.now);
    case _ =>
  }

  lemma LostStops()
    ensures Ptt in LOST && LOST[Ptt] == Flag(false)
  {}

  lemma RefreshTimer(c: Cache, radio: Id, v: Value, now: int)
    ensures var d := Refresh(c, radio, v, now);
      && d.deadman == c.deadman && d.armed == c.armed && d.lastArm == c.lastArm
      && (Transmitting(d.state) <==> Transmitting(c.state))
  {}

  lemma UpdateCounts(c: Cache, radio: Id, p: Patch, kind: Kind, reason: string, now: int, timeout: int)
    requires ValidState(c.state) && ValidPatch(p) && timeout > 0
    ensures var d := Update(c, radio, p, kind, reason, now, timeout);
      Transmitting(d.state) && !Transmitting(c.state) ==> d.armed == c.armed + 1
  {
    if p != map[] {
      PttInDiff(c.state, p);
      hide RadioState.Apply, Diff, ValidState, ValidPatch;
    }
  }

  /** A timer that has run out calls ForceRX: nothing stands between it and that call. */
  lemma TimerForces(w: World, radio: Id, timeout: int)
    requires w.c.deadman.Some? && !w.c.deadman.value.fired && w.c.deadman.value.due <= w.now
    ensures Enabled(w, Fire)
    ensures var id := w.c.deadman.value.id; var f := Next(w, Fire, radio, timeout); var m := Next(f, FiredForceRX(id), radio, timeout);
      && f.c.deadman == Some(w.c.deadman.value.(fired := true)) && Enabled(f, FiredForceRX(id)) && !Enabled(f, Fire)
      && m.forced && m.c.deadman.None? && id !in m.pending && m.pending == w.pending - {id} && m.c.state == w.c.state
  {}

  // ---- what forced and dropping mean ----

  /** Step j sees the radio go up. */
  predicate Rises(w: World, steps: seq<Step>, j: nat, radio: Id, timeout: int)
    requires j < |steps|
  {
    !Transmitting(End(w, steps[..j], radio, timeout).c.state) && Transmitting(End(w, steps[..j + 1], radio, timeout).c.state)
  }

  /** ForceRX was called, and the radio has not been seen to go up since. */
  predicate ForcedSince(w: World, steps: seq<Step>, radio: Id, timeout: int) {
    exists i :: 0 <= i < |steps| && Forces(steps[i]) && forall j :: i < j < |steps| ==> !Rises(w, steps, j, radio, timeout)
  }

  predicate Forces(st: Step) { st.ForceRX? || st.FiredForceRX? }

  /** The link was lost, and its loss has not been published since. */
  predicate LossUnpublished(steps: seq<Step>) {
    exists i :: 0 <= i < |steps| && steps[i].LoseLink? && forall j :: i < j < |steps| ==> !steps[j].PublishLoss?
  }

  lemma {:induction false} EndPush(w: World, steps: seq<Step>, st: Step, radio: Id, timeout: int)
    ensures End(w, steps + [st], radio, timeout) == Next(End(w, steps, radio, timeout), st, radio, timeout)
    decreases |steps|
  {
    hide Next;
    if steps == [] {
      assert [] + [st] == [st] && [st][1..] == [];
    } else {
      assert (steps + [st])[1..] == steps[1..] + [st];
      EndPush(Next(w, steps[0], radio, timeout), steps[1..], st, radio, timeout);
    }
  }

  lemma {:induction false} ForcedIs(now: int, steps: seq<Step>, radio: Id, timeout: int)
    ensures End(Begin(now), steps, radio, timeout).forced ==> ForcedSince(Begin(now), steps, radio, timeout)
    ensures End(Begin(now), steps, radio, timeout).dropping ==> LossUnpublished(steps)
    decreases |steps|
  {
    if steps != [] {
      var n := |steps| - 1;
      var front, st := steps[..n], steps[n];
      assert front + [st] == steps;
      ForcedIs(now, front, radio, timeout);
      EndPush(Begin(now), front, st, radio, timeout);
      var w, m := End(Begin(now), front, radio, timeout), End(Begin(now), steps, radio, timeout);
      hide End;
      assert steps[..n + 1] == steps;
      ForcedNextIs(w, st, radio, timeout);
      hide Next, Begin;
      if m.forced {
        if Forces(st) {
          assert Forces(steps[n]);
        } else {
          var i :| 0 <= i < n && Forces(front[i]) && forall j :: i < j < n ==> !Rises(Begin(now), front, j, radio, timeout);
          assert Forces(steps[i]);
          forall j | i < j < |steps| ensures !Rises(Begin(now), steps, j, radio, timeout) {
            if j < n { assert front[..j] == steps[..j] && front[..j + 1] == steps[..j + 1]; assert !Rises(Begin(now), front, j, radio, timeout); }
          }
        }
      }
      if m.dropping && !st.LoseLink? {
        var i :| 0 <= i < n && front[i].LoseLink? && forall j :: i < j < n ==> !front[j].PublishLoss?;
        assert steps[i].LoseLink?;
      }
    }
  }

  lemma ForcedNextIs(w: World, st: Step, radio: Id, timeout: int)
    ensures var m := Next(w, st, radio, timeout);
      && (m.forced ==> Forces(st) || (w.forced && !(!Transmitting(w.c.state) && Transmitting(m.c.state))))
      && (m.dropping ==> st.LoseLink? || (w.dropping && !st.PublishLoss?))
  {
    hide Update;
    if st.RefreshCW? { RefreshTimer(w.c, radio, st.v, w.now); }
  }

  /** The dead-man interlock, said of the steps alone: while the session is open and a timeout is
      configured, a cache that says the radio transmits has its timer running, or ForceRX has been
      called since the radio was last seen to go up, or its link has just been lost. */
  lemma DeadmanOverRuns(now: int, steps: seq<Step>, radio: Id, timeout: int)
    requires timeout > 0 && AllEnabled(Begin(now), steps, radio, timeout)
    ensures var w := End(Begin(now), steps, radio, timeout);
      w.open && Transmitting(w.c.state) ==>
        Guarded(w, timeout) || ForcedSince(Begin(now), steps, radio, timeout) || LossUnpublished(steps)
  {
    hide *;
    DeadmanGuards(now, steps, radio, timeout);
    ForcedIs(now, steps, radio, timeout);
  }
}

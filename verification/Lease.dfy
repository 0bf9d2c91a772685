/** Per-radio leases with a sliding time-to-live and proactive expiry (internal/lock/lock.go).
    Every lease is stamped with a generation, and its timer may fire late: after the lease it was
    armed for has been renewed, released, stolen or removed. */
module Lease {
  import opened Basics

  datatype Lock = Lock(radio: string, token: string, user: string, expiresAt: int)

  datatype Entry = Entry(lock: Lock, gen: nat)

  // An armed expiry timer.
  datatype Timer = Timer(radio: string, due: int)

  datatype Table = Table(locks: map<string, Entry>, gen: nat, armed: map<nat, Timer>)

  datatype Config = Config(enabled: bool, allowSteal: bool, ttl: int)

  datatype LockError = HeldByOther(holder: Lock) | NoStealing(holder: Lock) | NoLock | BadToken | Expired

  type Outcome = Result<Lock, LockError>

  predicate Held(l: Lock, now: int) { now < l.expiresAt }

  function Public(l: Lock): Lock { l.(token := "") }

  predicate TokenEqual(want: string, got: string) { want != "" && got != "" && want == got }

  // ---- the critical sections, as functions ----

  function Stop(s: Table, radio: string): map<nat, Timer> {
    if radio in s.locks then s.armed - {s.locks[radio].gen} else s.armed
  }

  function Install(s: Table, l: Lock): Table {
    var g := s.gen + 1;
    Table(s.locks[l.radio := Entry(l, g)], g, Stop(s, l.radio)[g := Timer(l.radio, l.expiresAt)])
  }

  function Remove(s: Table, radio: string): Table {
    s.(locks := s.locks - {radio}, armed := Stop(s, radio))
  }

  function DoAcquire(s: Table, c: Config, radio: string, user: string, force: bool, token: string, now: int): (Table, Outcome) {
    if radio in s.locks && Held(s.locks[radio].lock, now) && s.locks[radio].lock.user != user && !force then
      (s, Err(HeldByOther(Public(s.locks[radio].lock))))
    else if radio in s.locks && Held(s.locks[radio].lock, now) && s.locks[radio].lock.user != user && !c.allowSteal then
      (s, Err(NoStealing(Public(s.locks[radio].lock))))
    else
      var l := Lock(radio, token, user, now + c.ttl);
      (Install(s, l), Ok(l))
  }

  /** t1 and t2 are the two clock readings a renewal takes. */
  function DoRenew(s: Table, c: Config, radio: string, token: string, t1: int, t2: int): (Table, Outcome) {
    if radio !in s.locks then (s, Err(NoLock))
    else if !Held(s.locks[radio].lock, t1) then (Remove(s, radio), Err(Expired))
    else if !TokenEqual(s.locks[radio].lock.token, token) then (s, Err(BadToken))
    else var l := s.locks[radio].lock.(expiresAt := t2 + c.ttl); (Install(s, l), Ok(l))
  }

  function DoRelease(s: Table, radio: string, token: string): (Table, Option<LockError>) {
    if radio !in s.locks then (s, Some(NoLock))
    else if !TokenEqual(s.locks[radio].lock.token, token) then (s, Some(BadToken))
    else (Remove(s, radio), None)
  }

  function DoCheck(s: Table, c: Config, radio: string, token: string, t0: int, t1: int, t2: int): (Table, Option<LockError>) {
    if !c.enabled then (s, None)
    else if radio !in s.locks then (s, Some(NoLock))
    else if !Held(s.locks[radio].lock, t0) then (Remove(s, radio), Some(Expired))
    else if token == "" then (s, Some(NoLock))
    else if !TokenEqual(s.locks[radio].lock.token, token) then (s, Some(HeldByOther(Public(s.locks[radio].lock))))
    else
      var (after, r) := DoRenew(s, c, radio, token, t1, t2);
      (after, if r.Ok? then None else Some(r.error))
  }

  function DoInspect(s: Table, radio: string, now: int): (Table, Option<Lock>) {
    if radio !in s.locks then (s, None)
    else if !Held(s.locks[radio].lock, now) then (Remove(s, radio), None)
    else (s, Some(Public(s.locks[radio].lock)))
  }

  predicate Current(s: Table, radio: string, gen: nat) { radio in s.locks && s.locks[radio].gen == gen }

  function DoExpire(s: Table, radio: string, gen: nat): Table {
    if Current(s, radio, gen) then Remove(s, radio) else s
  }

  class Manager {
    var locks: map<string, Entry>
    var gen: nat
    var armed: map<nat, Timer>
    const config: Config

    ghost function View(): Table reads this { Table(locks, gen, armed) }

    constructor (config: Config)
      ensures View() == Table(map[], 0, map[])
      ensures this.config == config.(ttl := if config.ttl <= 0 then 30_000_000_000 else config.ttl)
    {
      this.config := config.(ttl := if config.ttl <= 0 then 30_000_000_000 else config.ttl);
      locks, gen, armed := map[], 0, map[];
    }

    method Acquire(radio: string, user: string, force: bool, token: string, now: int) returns (r: Outcome)
      modifies this
      ensures (View(), r) == DoAcquire(old(View()), config, radio, user, force, token, now)
    {
      if radio in locks {
        var cur := locks[radio].lock;
        if Held(cur, now) && cur.user != user {
          if !force { return Err(HeldByOther(Public(cur))); }
          if !config.allowSteal { return Err(NoStealing(Public(cur))); }
        }
      }
      var l := Lock(radio, token, user, now + config.ttl);
      InstallLocked(l);
      r := Ok(l);
    }

    method Renew(radio: string, token: string, t1: int, t2: int) returns (r: Outcome)
      modifies this
      ensures (View(), r) == DoRenew(old(View()), config, radio, token, t1, t2)
    {
      if radio !in locks { return Err(NoLock); }
      var e := locks[radio];
      if !Held(e.lock, t1) {
        RemoveLocked(radio);
        return Err(Expired);
      }
      if !TokenEqual(e.lock.token, token) { return Err(BadToken); }
      var l := e.lock.(expiresAt := t2 + config.ttl);
      InstallLocked(l);
      r := Ok(l);
    }

    method Release(radio: string, token: string) returns (err: Option<LockError>)
      modifies this
      ensures (View(), err) == DoRelease(old(View()), radio, token)
    {
      if radio !in locks { return Some(NoLock); }
      if !TokenEqual(locks[radio].lock.token, token) { return Some(BadToken); }
      RemoveLocked(radio);
      err := None;
    }

    method Check(radio: string, token: string, t0: int, t1: int, t2: int) returns (err: Option<LockError>)
      modifies this
      ensures (View(), err) == DoCheck(old(View()), config, radio, token, t0, t1, t2)
    {
      if !config.enabled { return None; }
      if radio !in locks { return Some(NoLock); }
      var e := locks[radio];
      if !Held(e.lock, t0) {
        RemoveLocked(radio);
        return Some(Expired);
      }
      if token == "" { return Some(NoLock); }
      if !TokenEqual(e.lock.token, token) { return Some(HeldByOther(Public(e.lock))); }
      var r := Renew(radio, token, t1, t2);
      err := if r.Ok? then None else Some(r.error);
    }

    method IsHolder(radio: string, token: string, now: int) returns (mine: bool)
      ensures mine <==> radio in locks && Held(locks[radio].lock, now) && token != "" && token == locks[radio].lock.token
    {
      if token == "" { return false; }
      if radio !in locks || !Held(locks[radio].lock, now) { return false; }
      mine := TokenEqual(locks[radio].lock.token, token);
    }

    method Inspect(radio: string, now: int) returns (l: Option<Lock>)
      modifies this
      ensures (View(), l) == DoInspect(old(View()), radio, now)
    {
      if radio !in locks { return None; }
      if !Held(locks[radio].lock, now) {
        RemoveLocked(radio);
        return None;
      }
      l := Some(Public(locks[radio].lock));
    }

    method Expire(radio: string, g: nat) returns (callback: bool)
      modifies this
      ensures View() == DoExpire(old(View()), radio, g)
      ensures callback <==> Current(old(View()), radio, g)
    {
      if radio !in locks || locks[radio].gen != g { return false; }
      RemoveLocked(radio);
      callback := true;
    }

    method InstallLocked(l: Lock)
      modifies this
      ensures View() == Install(old(View()), l)
    {
      if l.radio in locks { armed := armed - {locks[l.radio].gen}; }
      gen := gen + 1;
      armed := armed[gen := Timer(l.radio, l.expiresAt)];
      locks := locks[l.radio := Entry(l, gen)];
    }

    method RemoveLocked(radio: string)
      modifies this`locks, this`armed
      ensures View() == Remove(old(View()), radio)
    {
      if radio in locks {
        armed := armed - {locks[radio].gen};
      }
      locks := locks - {radio};
    }
  }

  // ---- the protocol ----

  // A timer that has fired and waits for the mutex.
  datatype Shot = Shot(radio: string, gen: nat)

  // An expiry callback: for which lease, when, and when that lease was due to end.
  datatype Call = Call(radio: string, gen: nat, at: int, due: int)

  // used holds every token handed out.
  datatype World = World(s: Table, now: int, firing: set<Shot>, used: set<string>, calls: seq<Call>)

  datatype Step =
    | Acquire(radio: string, user: string, force: bool, token: string, seen: int)
    | Renew(radio: string, token: string, t1: int, t2: int)
    | Check(radio: string, token: string, t0: int, t1: int, t2: int)
    | Release(radio: string, token: string)
    | Inspect(radio: string, t: int)
    | Close
    | Tick(t: int)
    | Fire(gen: nat)
    | Expire(shot: Shot)

  /** Acquire reads the clock before it has the mutex, so its reading may be old by any amount.
      A timer never fires before its lease has run out. */
  predicate Enabled(w: World, st: Step) {
    match st
    case Acquire(_, _, _, token, seen) => token != "" && token !in w.used && seen <= w.now
    case Renew(_, _, t1, t2) => w.now <= t1 <= t2
    case Check(_, _, t0, t1, t2) => w.now <= t0 <= t1 <= t2
    case Inspect(_, t) => w.now <= t
    case Tick(t) => w.now <= t
    case Fire(g) => g in w.s.armed && w.s.armed[g].due <= w.now
    case Expire(shot) => shot in w.firing
    case _ => true
  }

  function Next(w: World, st: Step, c: Config): World
    requires Enabled(w, st)
  {
    match st
    case Acquire(radio, user, force, token, seen) =>
      w.(s := DoAcquire(w.s, c, radio, user, force, token, seen).0, used := w.used + {token})
    case Renew(radio, token, t1, t2) =>
      w.(s := DoRenew(w.s, c, radio, token, t1, t2).0, now := t2)
    case Check(radio, token, t0, t1, t2) =>
      w.(s := DoCheck(w.s, c, radio, token, t0, t1, t2).0, now := t2)
    case Release(radio, token) => w.(s := DoRelease(w.s, radio, token).0)
    case Inspect(radio, t) => w.(s := DoInspect(w.s, radio, t).0, now := t)
    case Close => w.(s := w.s.(locks := map[], armed := map[]))
    case Tick(t) => w.(now := t)
    case Fire(g) => w.(s := w.s.(armed := w.s.armed - {g}), firing := w.firing + {Shot(w.s.armed[g].radio, g)})
    case Expire(shot) =>
      w.(s := DoExpire(w.s, shot.radio, shot.gen), firing := w.firing - {shot},
         calls := if Current(w.s, shot.radio, shot.gen)
                  then w.calls + [Call(shot.radio, shot.gen, w.now, w.s.locks[shot.radio].lock.expiresAt)] else w.calls)
  }

  // ---- what every step keeps ----

  predicate Stamped(s: Table) {
    && (forall r :: r in s.locks ==> s.locks[r].lock.radio == r && 1 <= s.locks[r].gen <= s.gen)
    && (forall r, q :: r in s.locks && q in s.locks && s.locks[r].gen == s.locks[q].gen ==> r == q)
  }

  /** Only current leases have armed timers, each due when its lease ends. */
  predicate Armed(s: Table) {
    forall g :: g in s.armed ==>
      Current(s, s.armed[g].radio, g) && s.armed[g].due == s.locks[s.armed[g].radio].lock.expiresAt
  }

  /** No lease is without its timer: armed, or fired and waiting for the mutex. */
  predicate Guarded(w: World) {
    forall r :: r in w.s.locks ==> w.s.locks[r].gen in w.s.armed || Shot(r, w.s.locks[r].gen) in w.firing
  }

  predicate Fired(w: World) {
    forall shot :: shot in w.firing ==>
      && shot.gen <= w.s.gen
      && (Current(w.s, shot.radio, shot.gen) ==> w.s.locks[shot.radio].lock.expiresAt <= w.now)
  }

  predicate Called(w: World) {
    && (forall i :: 0 <= i < |w.calls| ==>
         && w.calls[i].due <= w.calls[i].at
         && w.calls[i].gen <= w.s.gen
         && forall r :: r in w.s.locks ==> w.s.locks[r].gen != w.calls[i].gen)
    && (forall i, j :: 0 <= i < j < |w.calls| ==> w.calls[i].gen != w.calls[j].gen)
  }

  predicate Issued(w: World) {
    forall r :: r in w.s.locks ==> w.s.locks[r].lock.token in w.used
  }

  predicate Sane(w: World) { Stamped(w.s) && Armed(w.s) && Guarded(w) && Fired(w) && Called(w) && Issued(w) }

  lemma InstallSane(w: World, l: Lock, now: int, used: set<string>)
    requires Sane(w) && w.now <= now && w.used <= used && l.token in used
    ensures Sane(w.(s := Install(w.s, l), now := now, used := used))
  {
    InstallArmed(w.s, l);
    InstallGuarded(w, l, now, used);
    hide Armed, Stamped, Guarded;
  }

  lemma InstallArmed(s: Table, l: Lock)
    requires Stamped(s) && Armed(s)
    ensures Stamped(Install(s, l)) && Armed(Install(s, l))
  {}

  lemma InstallGuarded(w: World, l: Lock, now: int, used: set<string>)
    requires Stamped(w.s) && Guarded(w)
    ensures Guarded(w.(s := Install(w.s, l), now := now, used := used))
  {}

  lemma RemoveSane(w: World, radio: string, now: int)
    requires Sane(w) && w.now <= now
    ensures Sane(w.(s := Remove(w.s, radio), now := now))
  {
    RemoveArmed(w.s, radio);
    RemoveGuarded(w, radio, now);
    hide Stamped, Armed, Guarded;
  }

  lemma RemoveArmed(s: Table, radio: string)
    requires Stamped(s) && Armed(s)
    ensures Stamped(Remove(s, radio)) && Armed(Remove(s, radio))
  {}

  lemma RemoveGuarded(w: World, radio: string, now: int)
    requires Stamped(w.s) && Guarded(w)
    ensures Guarded(w.(s := Remove(w.s, radio), now := now))
  {}

  lemma LaterSane(w: World, now: int, used: set<string>)
    requires Sane(w) && w.now <= now && w.used <= used
    ensures Sane(w.(now := now, used := used))
  {}

  lemma FireSane(w: World, g: nat, c: Config)
    requires Sane(w) && Enabled(w, Fire(g))
    ensures Sane(Next(w, Fire(g), c))
  {
    var m := Next(w, Fire(g), c);
    assert Current(w.s, w.s.armed[g].radio, g);
    assert Guarded(m);
    assert Fired(m);
  }

  lemma ExpireSane(w: World, shot: Shot, c: Config)
    requires Sane(w) && Enabled(w, Expire(shot))
    ensures Sane(Next(w, Expire(shot), c))
  {
    hide Sane, Guarded;
    var n := w.(s := DoExpire(w.s, shot.radio, shot.gen));
    RemovedSane(w, shot);
    if Current(w.s, shot.radio, shot.gen) {
      CallSane(n, shot, Call(shot.radio, shot.gen, w.now, w.s.locks[shot.radio].lock.expiresAt));
    } else {
      ShotSane(n, shot);
    }
  }

  lemma RemovedSane(w: World, shot: Shot)
    requires Sane(w) && shot in w.firing
    ensures var n := w.(s := DoExpire(w.s, shot.radio, shot.gen));
      && Sane(n) && !Current(n.s, shot.radio, shot.gen)
      && (forall r :: r in n.s.locks && Current(w.s, shot.radio, shot.gen) ==> n.s.locks[r].gen != shot.gen)
      && (Current(w.s, shot.radio, shot.gen) ==> w.s.locks[shot.radio].lock.expiresAt <= w.now)
      && (forall i :: 0 <= i < |w.calls| && Current(w.s, shot.radio, shot.gen) ==> w.calls[i].gen != shot.gen)
      && shot.gen <= w.s.gen
  {
    RemoveSane(w, shot.radio, w.now);
  }

  // A shot whose lease is not in the table has nothing left to guard.
  lemma ShotSane(n: World, shot: Shot)
    requires Sane(n) && !Current(n.s, shot.radio, shot.gen)
    ensures Sane(n.(firing := n.firing - {shot}))
  {}

  lemma CallSane(n: World, shot: Shot, call: Call)
    requires Sane(n) && !Current(n.s, shot.radio, shot.gen)
    requires call.gen == shot.gen <= n.s.gen && call.due <= call.at
    requires forall r :: r in n.s.locks ==> n.s.locks[r].gen != shot.gen
    requires forall i :: 0 <= i < |n.calls| ==> n.calls[i].gen != shot.gen
    ensures Sane(n.(firing := n.firing - {shot}, calls := n.calls + [call]))
  {
    ShotSane(n, shot);
    hide Guarded, Fired, Armed, Stamped;
  }

  lemma AcquireSane(w: World, radio: string, user: string, force: bool, token: string, seen: int, c: Config)
    requires Sane(w)
    ensures Sane(w.(s := DoAcquire(w.s, c, radio, user, force, token, seen).0, used := w.used + {token}))
  {
    hide Sane, Install, Held, Public;
    InstallSane(w, Lock(radio, token, user, seen + c.ttl), w.now, w.used + {token});
    LaterSane(w, w.now, w.used + {token});
  }

  lemma RenewSane(w: World, radio: string, token: string, t1: int, t2: int, c: Config)
    requires Sane(w) && w.now <= t1 <= t2
    ensures Sane(w.(s := DoRenew(w.s, c, radio, token, t1, t2).0, now := t2))
  {
    hide Sane, Install, Remove, Held, TokenEqual;
    LaterSane(w, t2, w.used);
    RemoveSane(w, radio, t2);
    RenewedSane(w, radio, t2, c);
  }

  lemma RenewedSane(w: World, radio: string, t2: int, c: Config)
    requires Sane(w) && w.now <= t2
    ensures radio in w.s.locks ==> Sane(w.(s := Install(w.s, w.s.locks[radio].lock.(expiresAt := t2 + c.ttl)), now := t2))
  {
    if radio in w.s.locks { InstallSane(w, w.s.locks[radio].lock.(expiresAt := t2 + c.ttl), t2, w.used); }
    hide Install;
  }

  lemma CheckSane(w: World, radio: string, token: string, t0: int, t1: int, t2: int, c: Config)
    requires Sane(w) && w.now <= t0 <= t1 <= t2
    ensures Sane(w.(s := DoCheck(w.s, c, radio, token, t0, t1, t2).0, now := t2))
  {
    hide Sane, DoRenew, Remove, Held, TokenEqual, Public;
    LaterSane(w, t2, w.used);
    LaterSane(w, w.now, w.used);
    RemoveSane(w, radio, t2);
    RenewSane(w, radio, token, t1, t2, c);
  }

  lemma DropSane(w: World, st: Step, c: Config)
    requires Sane(w) && Enabled(w, st) && (st.Release? || st.Inspect? || st.Close?)
    ensures Sane(Next(w, st, c))
  {
    match st
    case Release(radio, _) =>
      RemoveSane(w, radio, w.now);
      hide Sane, Remove;
    case Inspect(radio, t) =>
      RemoveSane(w, radio, t);
      LaterSane(w, t, w.used);
      hide Sane, Remove;
    case Close =>
  }

  lemma StepSane(w: World, st: Step, c: Config)
    requires Sane(w) && Enabled(w, st)
    ensures Sane(Next(w, st, c))
  {
    hide Sane, DoAcquire, DoRenew, DoCheck, DoRelease, DoInspect, DoExpire;
    match st
    case Acquire(radio, user, force, token, seen) => AcquireSane(w, radio, user, force, token, seen, c);
    case Renew(radio, token, t1, t2) => RenewSane(w, radio, token, t1, t2, c);
    case Check(radio, token, t0, t1, t2) => CheckSane(w, radio, token, t0, t1, t2, c);
    case Tick(t) => LaterSane(w, t, w.used);
    case Fire(g) => FireSane(w, g, c);
    case Expire(shot) => ExpireSane(w, shot, c);
    case _ => DropSane(w, st, c);
  }

  // ---- whole runs ----

  predicate AllEnabled(w: World, steps: seq<Step>, c: Config)
    decreases |steps|
  {
    steps == [] || (Enabled(w, steps[0]) && AllEnabled(Next(w, steps[0], c), steps[1..], c))
  }

  function End(w: World, steps: seq<Step>, c: Config): World
    requires AllEnabled(w, steps, c)
    decreases |steps|
  {
    if steps == [] then w else End(Next(w, steps[0], c), steps[1..], c)
  }

  function Begin(now: int): World { World(Table(map[], 0, map[]), now, {}, {}, []) }

  lemma {:induction false} RunSane(w: World, steps: seq<Step>, c: Config)
    requires Sane(w) && AllEnabled(w, steps, c)
    ensures Sane(End(w, steps, c))
    decreases |steps|
  {
    hide Sane, Next, Enabled;
    if steps != [] {
      StepSane(w, steps[0], c);
      RunSane(Next(w, steps[0], c), steps[1..], c);
    }
  }

  /** Over every run: no lease calls back twice, none calls back before it has run out, and
      every lease in the table has a timer that will look at it. */
  lemma CallsBackOnce(now: int, steps: seq<Step>, c: Config)
    requires AllEnabled(Begin(now), steps, c)
    ensures var w := End(Begin(now), steps, c);
      && (forall i, j :: 0 <= i < j < |w.calls| ==> w.calls[i].gen != w.calls[j].gen)
      && (forall i :: 0 <= i < |w.calls| ==> w.calls[i].due <= w.calls[i].at)
      && Guarded(w)
  {
    hide AllEnabled, End;
    RunSane(Begin(now), steps, c);
  }

  predicate Gone(s: Table, gen: nat) {
    gen <= s.gen && forall r :: r in s.locks ==> s.locks[r].gen != gen
  }

  lemma StepGone(w: World, st: Step, c: Config, gen: nat)
    requires Enabled(w, st) && Gone(w.s, gen)
    ensures Gone(Next(w, st, c).s, gen)
    ensures w.calls <= Next(w, st, c).calls
    ensures forall i :: |w.calls| <= i < |Next(w, st, c).calls| ==> Next(w, st, c).calls[i].gen != gen
  {}

  /** A generation no lease carries any more never calls back, however late its timer gets the
      mutex. */
  lemma {:induction false} SupersededNeverCalls(w: World, steps: seq<Step>, c: Config, gen: nat)
    requires AllEnabled(w, steps, c) && Gone(w.s, gen)
    ensures w.calls <= End(w, steps, c).calls
    ensures forall i :: |w.calls| <= i < |End(w, steps, c).calls| ==> End(w, steps, c).calls[i].gen != gen
    decreases |steps|
  {
    hide Gone, Next, Enabled;
    if steps != [] {
      StepGone(w, steps[0], c, gen);
      SupersededNeverCalls(Next(w, steps[0], c), steps[1..], c, gen);
      var m, e := Next(w, steps[0], c), End(w, steps, c);
      forall i | |w.calls| <= i < |e.calls| ensures e.calls[i].gen != gen {
        if i < |m.calls| { assert e.calls[i] == m.calls[i]; }
      }
    }
  }

  /** How a lease ends: it calls back exactly when its own timer is what removes it. */
  lemma HowLeasesEnd(w: World, st: Step, c: Config, radio: string)
    requires Sane(w) && Enabled(w, st) && radio in w.s.locks
    ensures var g, m := w.s.locks[radio].gen, Next(w, st, c);
      && (|m.calls| > |w.calls| && m.calls[|w.calls|].gen == g <==> st == Expire(Shot(radio, g)))
      && (st == Expire(Shot(radio, g)) ==> radio !in m.s.locks)
  {
    hide Guarded, Fired, Armed, Called, Issued;
    if st.Expire? && Current(w.s, st.shot.radio, st.shot.gen) {
      hide Remove;
    }
  }

  /** What ends radio's lease: an acquire that is granted, by its holder, over a lapse or by a
      permitted steal; a renewal or a check with its token; a release with it; whatever finds it
      lapsed; a close; and its own timer. */
  predicate Ends(w: World, st: Step, c: Config, radio: string)
    requires radio in w.s.locks
  {
    var l := w.s.locks[radio].lock;
    match st
    case Acquire(r, user, force, _, seen) => r == radio && (!Held(l, seen) || l.user == user || (force && c.allowSteal))
    case Renew(r, token, t1, _) => r == radio && (!Held(l, t1) || TokenEqual(l.token, token))
    case Check(r, token, t0, _, _) => c.enabled && r == radio && (!Held(l, t0) || TokenEqual(l.token, token))
    case Release(r, token) => r == radio && TokenEqual(l.token, token)
    case Inspect(r, t) => r == radio && !Held(l, t)
    case Close => true
    case Expire(shot) => shot == Shot(radio, w.s.locks[radio].gen)
    case _ => false
  }

  /** Those steps end it, for good, and no other step does. */
  lemma StepEnds(w: World, st: Step, c: Config, radio: string)
    requires Sane(w) && Enabled(w, st) && radio in w.s.locks
    ensures var g := w.s.locks[radio].gen;
      && (Ends(w, st, c, radio) <==> Gone(Next(w, st, c).s, g))
      && (Ends(w, st, c, radio) <==> !Current(Next(w, st, c).s, radio, g))
      && (st != Expire(Shot(radio, g)) && Ends(w, st, c, radio) ==> Next(w, st, c).calls == w.calls)
  {
    OthersDiffer(w, st, c, radio);
    EndsCurrent(w, st, c, radio);
    EndsQuietly(w, st, c, radio);
    hide Next, Enabled, Sane, Ends;
  }

  lemma EndsCurrent(w: World, st: Step, c: Config, radio: string)
    requires Stamped(w.s) && Enabled(w, st) && radio in w.s.locks
    ensures Ends(w, st, c, radio) <==> !Current(Next(w, st, c).s, radio, w.s.locks[radio].gen)
  {}

  lemma EndsQuietly(w: World, st: Step, c: Config, radio: string)
    requires Enabled(w, st) && radio in w.s.locks
    ensures st != Expire(Shot(radio, w.s.locks[radio].gen)) && Ends(w, st, c, radio) ==> Next(w, st, c).calls == w.calls
  {}

  // The other leases never take on its generation.
  lemma OthersDiffer(w: World, st: Step, c: Config, radio: string)
    requires Stamped(w.s) && Enabled(w, st) && radio in w.s.locks
    ensures var g, s := w.s.locks[radio].gen, Next(w, st, c).s;
      g <= s.gen && forall r :: r in s.locks && r != radio ==> s.locks[r].gen != g
  {}

  /** However a lease ends, by renewal, release, steal, replacement, removal or close, if it is not
      by its own timer it never calls back. */
  lemma EndedNeverCalls(w: World, st: Step, steps: seq<Step>, c: Config, radio: string)
    requires Sane(w) && Enabled(w, st) && radio in w.s.locks && Ends(w, st, c, radio)
    requires st != Expire(Shot(radio, w.s.locks[radio].gen))
    requires AllEnabled(Next(w, st, c), steps, c)
    ensures var e := End(Next(w, st, c), steps, c);
      && w.calls <= e.calls
      && forall i :: |w.calls| <= i < |e.calls| ==> e.calls[i].gen != w.s.locks[radio].gen
  {
    StepEnds(w, st, c, radio);
    hide Sane, Next, Gone, AllEnabled, End, Ends, Enabled;
    SupersededNeverCalls(Next(w, st, c), steps, c, w.s.locks[radio].gen);
  }

  /** A lapse someone sees first never calls back: looking at a lapsed lease, checking it, renewing
      it or acquiring over it takes it out of the table, and its timer then finds nothing. */
  lemma SeenLapseIsSilent(w: World, look: Step, steps: seq<Step>, c: Config, radio: string)
    requires Sane(w) && c.enabled && Enabled(w, look) && radio in w.s.locks
    requires match look
      case Inspect(r, t) => r == radio && w.s.locks[radio].lock.expiresAt <= t
      case Check(r, _, t0, _, _) => r == radio && w.s.locks[radio].lock.expiresAt <= t0
      case Renew(r, _, t1, _) => r == radio && w.s.locks[radio].lock.expiresAt <= t1
      case Acquire(r, _, _, _, seen) => r == radio && w.s.locks[radio].lock.expiresAt <= seen
      case _ => false
    requires AllEnabled(Next(w, look, c), steps, c)
    ensures var e := End(Next(w, look, c), steps, c);
      && w.calls <= e.calls
      && forall i :: |w.calls| <= i < |e.calls| ==> e.calls[i].gen != w.s.locks[radio].gen
  {
    assert Ends(w, look, c, radio) && look != Expire(Shot(radio, w.s.locks[radio].gen));
    hide Sane, Next, AllEnabled, End, Ends, Enabled;
    EndedNeverCalls(w, look, steps, c, radio);
  }

  // ---- tokens ----

  predicate Holds(s: Table, radio: string, token: string) {
    radio in s.locks && s.locks[radio].lock.token == token
  }

  lemma StepTokens(w: World, st: Step, c: Config, radio: string, token: string)
    requires Stamped(w.s) && Enabled(w, st) && token in w.used && !Holds(w.s, radio, token)
    ensures var m := Next(w, st, c); token in m.used && !Holds(m.s, radio, token)
  {}

  /** With fresh tokens, one that is no longer its radio's is dead for good: whatever happens in
      between, every check, renewal and release with it is refused. */
  lemma {:induction false} DeadTokens(w: World, steps: seq<Step>, c: Config, radio: string, token: string, t0: int, t1: int, t2: int)
    requires Sane(w) && AllEnabled(w, steps, c) && c.enabled && token in w.used && !Holds(w.s, radio, token)
    ensures var s := End(w, steps, c).s;
      && !Holds(s, radio, token)
      && DoCheck(s, c, radio, token, t0, t1, t2).1.Some?
      && DoRenew(s, c, radio, token, t1, t2).1.Err?
      && DoRelease(s, radio, token).1.Some?
    decreases |steps|
  {
    if steps != [] {
      hide Holds, Next, Enabled, Guarded, Fired, Armed, Called, Issued, Stamped;
      StepSane(w, steps[0], c);
      StepTokens(w, steps[0], c, radio, token);
      DeadTokens(Next(w, steps[0], c), steps[1..], c, radio, token, t0, t1, t2);
    }
  }

  // ---- what each call grants, refuses and leaves alone ----

  /** Nobody else's lease is touched. */
  predicate OthersKept(s: Table, after: Table, radio: string) {
    after.locks - {radio} == s.locks - {radio}
  }

  /** The radio's lease is l, under a generation of its own. */
  predicate Granted(s: Table, after: Table, radio: string, l: Lock) {
    && radio in after.locks && after.locks[radio] == Entry(l, s.gen + 1) && after.gen == s.gen + 1
    && l.radio == radio && OthersKept(s, after, radio)
  }

  /** There is a lease, and now is before its end. */
  predicate Live(s: Table, radio: string, now: int) { radio in s.locks && now < s.locks[radio].lock.expiresAt }

  /** A refusal names the holder and the end of the lease, and never the token. */
  predicate Names(shown: Lock, l: Lock) {
    shown.token == "" && shown.radio == l.radio && shown.user == l.user && shown.expiresAt == l.expiresAt
  }

  /** Whoever holds an unexpired lease keeps it against another user's acquire, unless that user
      forces it and stealing is allowed. Otherwise the radio is this user's, under this token, for
      a whole time-to-live, and a token already given out for it is dead. */
  lemma AcquireTakes(s: Table, c: Config, radio: string, user: string, force: bool, token: string, now: int)
    ensures var (after, r) := DoAcquire(s, c, radio, user, force, token, now);
      && (r.Err? <==> Live(s, radio, now) && s.locks[radio].lock.user != user && !(force && c.allowSteal))
      && (r.Err? ==> after == s && Names(r.error.holder, s.locks[radio].lock)
                     && if force then r.error.NoStealing? else r.error.HeldByOther?)
      && (r.Ok? ==>
            && Granted(s, after, radio, r.value)
            && r.value.user == user && r.value.token == token && r.value.expiresAt == now + c.ttl
            && forall was: string :: was != token ==> !Holds(after, radio, was))
  {}

  /** So the new holder passes the gate for that long. */
  lemma AcquiredPasses(s: Table, c: Config, radio: string, user: string, force: bool, token: string, now: int, t0: int, t1: int, t2: int)
    requires c.enabled && Stamped(s) && token != "" && DoAcquire(s, c, radio, user, force, token, now).1.Ok?
    requires t0 <= t1 <= t2 && t1 < now + c.ttl
    ensures DoCheck(DoAcquire(s, c, radio, user, force, token, now).0, c, radio, token, t0, t1, t2).1.None?
  {
    var after := DoAcquire(s, c, radio, user, force, token, now).0;
    AcquireTakes(s, c, radio, user, force, token, now);
    assert Stamped(after);
    hide DoAcquire, Stamped, DoCheck;
    CheckPasses(after, c, radio, token, t0, t1, t2);
  }

  /** A renewal succeeds exactly for the holder's own token on a lease that has not run out, and
      then the same user has the same token for a whole time-to-live more. A lapsed lease goes;
      any other refusal changes nothing. */
  lemma RenewExtends(s: Table, c: Config, radio: string, token: string, t1: int, t2: int)
    requires Stamped(s)
    ensures var (after, r) := DoRenew(s, c, radio, token, t1, t2);
      && (r.Ok? <==> Live(s, radio, t1) && token != "" && Holds(s, radio, token))
      && (r.Ok? ==>
            && Granted(s, after, radio, r.value)
            && r.value == Lock(radio, token, s.locks[radio].lock.user, t2 + c.ttl))
      && (r.Err? ==> r.error == if radio !in s.locks then NoLock else if !Live(s, radio, t1) then Expired else BadToken)
      && (r.Err? ==> Lapsed(s, after, radio, r.error == Expired))
  {}

  /** What a refusal leaves: everything, unless it found the lease lapsed. */
  predicate Lapsed(s: Table, after: Table, radio: string, lapsed: bool) {
    if lapsed then radio !in after.locks && OthersKept(s, after, radio) && after.gen == s.gen else after == s
  }

  /** A release ends exactly the lease of the token it is given. */
  lemma ReleaseEnds(s: Table, radio: string, token: string)
    ensures var (after, err) := DoRelease(s, radio, token);
      && (err.None? <==> token != "" && Holds(s, radio, token))
      && (err.Some? ==> err.value == if radio in s.locks then BadToken else NoLock)
      && Lapsed(s, after, radio, err.None?)
  {}

  /** A check passes only for the holder's own token on a lease that has not run out, and then
      the lease lasts a whole time-to-live from the check; it says why if it does not. Where
      locking is off everything passes and nothing changes. */
  lemma CheckPasses(s: Table, c: Config, radio: string, token: string, t0: int, t1: int, t2: int)
    requires t0 <= t1 <= t2 && Stamped(s)
    ensures var (after, err) := DoCheck(s, c, radio, token, t0, t1, t2);
      && (!c.enabled ==> err.None? && after == s)
      && (c.enabled ==> (err.None? <==> Holds(s, radio, token) && token != "" && Live(s, radio, t1)))
      && (c.enabled && err.None? ==> Granted(s, after, radio, Lock(radio, token, s.locks[radio].lock.user, t2 + c.ttl)))
      && (err.Some? ==> Lapsed(s, after, radio, err.value == Expired))
      && (err.Some? && radio !in s.locks ==> err.value == NoLock)
      && (err.Some? && radio in s.locks && !Live(s, radio, t0) ==> err.value == Expired)
      && (err.Some? && Live(s, radio, t0) && Holds(s, radio, token) && token != "" ==> err.value == Expired && !Live(s, radio, t1))
      && (err.Some? && Live(s, radio, t0) && !(Holds(s, radio, token) && token != "") ==>
            if token == "" then err.value == NoLock
            else err.value.HeldByOther? && Names(err.value.holder, s.locks[radio].lock))
  {}

  /** An inspection shows exactly a live lease, without its token; one that has run out goes. */
  lemma InspectShows(s: Table, radio: string, now: int)
    ensures var (after, l) := DoInspect(s, radio, now);
      && (l.Some? <==> Live(s, radio, now))
      && (l.Some? ==> Names(l.value, s.locks[radio].lock))
      && Lapsed(s, after, radio, radio in s.locks && !Live(s, radio, now))
  {}

  /** The same table but for the secret of one lease. */
  predicate ButForToken(s: Table, s': Table, radio: string) {
    && radio in s.locks && s.locks[radio].lock.token != "" && radio in s'.locks && s'.locks[radio].lock.token != ""
    && s' == s.(locks := s.locks[radio := s.locks[radio].(lock := s.locks[radio].lock.(token := s'.locks[radio].lock.token))])
  }

  /** Whoever does not hold the token learns nothing about it: every answer is the one there would
      be under any other token they do not hold. */
  lemma TokenStaysSecret(s: Table, s': Table, c: Config, radio: string, token: string, user: string, force: bool, t0: int, t1: int, t2: int)
    requires ButForToken(s, s', radio) && !Holds(s, radio, token) && !Holds(s', radio, token)
    ensures DoCheck(s, c, radio, token, t0, t1, t2).1 == DoCheck(s', c, radio, token, t0, t1, t2).1
    ensures DoRenew(s, c, radio, token, t1, t2).1 == DoRenew(s', c, radio, token, t1, t2).1
    ensures DoRelease(s, radio, token).1 == DoRelease(s', radio, token).1
    ensures DoInspect(s, radio, t0).1 == DoInspect(s', radio, t0).1
    ensures DoAcquire(s, c, radio, user, force, token, t0).1 == DoAcquire(s', c, radio, user, force, token, t0).1
  {}
}

/** A client's picture of one radio against the session's cache, over the whole path of an update:
    stored and published (internal/rig/session.go), rendered (internal/ws/client.go), and folded
    onto the picture (internal/client/stream.go). Each event is drained before the next comes. */
module ClientView {
  import opened Basics
  import opened RadioState
  import opened Events
  import WsClient
  import opened SessionCache

  // What a client shows of a radio, and the newest number it has been sent.
  datatype Picture = Picture(view: State, last: nat)

  // A change of the radio: an update from it, or its CW queue's status.
  datatype Change = Report(p: Patch, kind: Kind, reason: string) | Queue(v: Value)

  function Changed(c: Cache, radio: Id, ch: Change, now: int, timeout: int): Cache {
    match ch
    case Report(p, kind, reason) => Update(c, radio, p, kind, reason, now, timeout)
    case Queue(v) => Refresh(c, radio, v, now)
  }

  /** What one message does to the picture. */
  function Received(v: Picture, m: WsClient.Message): Picture {
    match m
    case StateMsg(_, n, _, st, _) => Picture(st, n)
    case DeltaMsg(_, n, _, changed) => Picture(ApplyDelta(v.view, changed), n)
    case _ => v
  }

  /** The picture once the client has been sent what the change published, if anything. */
  function Shown(v: Picture, radio: Id, before: Cache, after: Cache): Picture {
    if |after.log| == |before.log| || after.log == [] then v
    else
      var m := WsClient.StateMessage(map[radio := v.last], after.log[|after.log| - 1]);
      if m.None? then v else Received(v, m.value)
  }

  function Watch(c: Cache, v: Picture, radio: Id, changes: seq<Change>, now: int, timeout: int): (Cache, Picture)
    decreases |changes|
  {
    if changes == [] then (c, v)
    else
      var d := Changed(c, radio, changes[0], now, timeout);
      Watch(d, Shown(v, radio, c, d), radio, changes[1..], now, timeout)
  }

  /** The changes a delta can carry: not to the transmit audio, and not the loss of a signal
      meter's calibrated figure. */
  ghost predicate Carried(s: State, ch: Change) {
    match ch
    case Report(p, _, _) => ValidPatch(p) && KeepsAudio(s, p) && KeepsCalibration(s, RadioState.Apply(s, p))
    case Queue(v) => Typed(CW, v)
  }

  ghost predicate AllCarried(c: Cache, radio: Id, changes: seq<Change>, now: int, timeout: int)
    decreases |changes|
  {
    changes == [] || (Carried(c.state, changes[0]) && AllCarried(Changed(c, radio, changes[0], now, timeout), radio, changes[1..], now, timeout))
  }

  ghost predicate Level(c: Cache, v: Picture, start: State) {
    Faithful(c, start) && Same(v.view, c.state) && v.last <= c.num
  }

  lemma ReportLevel(c: Cache, v: Picture, start: State, radio: Id, p: Patch, kind: Kind, reason: string, now: int, timeout: int)
    requires Level(c, v, start) && Carried(c.state, Report(p, kind, reason))
    ensures var d := Update(c, radio, p, kind, reason, now, timeout); Level(d, Shown(v, radio, c, d), start)
  {
    UpdateFaithful(c, start, radio, p, kind, reason, now, timeout);
    if p != map[] {
      var next := RadioState.Apply(c.state, p);
      var changed := Diff(c.state, next);
      if changed == map[] {
        SilentLevel(c.state, p);
        hide Faithful, RadioState.Apply, Diff, KeepsAudio, KeepsCalibration, ValidPatch;
      } else {
        var sent := ChangedFields(changed, next);
        ClientFollows(c.state, p);
        DeltaOfSame(v.view, c.state, sent);
        var ev := Event(kind, radio, c.num + 1, now, next, changed, reason, 0);
        InterlockFrame(c.(state := next, num := c.num + 1, log := c.log + [ev]), changed, now, timeout);
        assert Same(ApplyDelta(v.view, sent), next);
        hide Faithful, RadioState.Apply, Diff, KeepsAudio, KeepsCalibration, ValidPatch, ChangedFields, ApplyDelta, Interlocked;
      }
    }
  }

  lemma SilentLevel(s: State, p: Patch)
    requires ValidState(s) && MetersQuiet(s) && ValidPatch(p) && KeepsAudio(s, p)
    requires Diff(s, RadioState.Apply(s, p)) == map[]
    ensures Same(s, RadioState.Apply(s, p))
  {
    SilentUpdate(s, p);
    var next := RadioState.Apply(s, p);
    forall f: Field ensures s(f) == next(f) {
      if ClassOf(f) == TxAudio { assert next(f) == Merged(s, p)(f); }
    }
  }

  lemma QueueLevel(c: Cache, v: Picture, start: State, radio: Id, q: Value, now: int)
    requires Level(c, v, start) && Typed(CW, q)
    ensures var d := Refresh(c, radio, q, now); Level(d, Shown(v, radio, c, d), start)
  {
    RefreshFaithful(c, start, radio, q, now);
    if c.state(CW) != q {
      var next := WithCW(c.state, q);
      QueueDelta(c.state, v.view, q);
      assert CW in map[CW := q];
      hide Faithful, ChangedFields, ApplyDelta, WithCW;
    }
  }

  lemma QueueDelta(s: State, view: State, q: Value)
    requires Same(view, s) && Typed(CW, q)
    ensures Same(ApplyDelta(view, ChangedFields(map[CW := q], WithCW(s, q))), WithCW(s, q))
  {
    var p := map[CW := q];
    assert ClassOf(CW) == Plain;
    assert !MetersGoOut(p) by { assert forall f :: f in p ==> f == CW; }
    assert forall f: Field :: f in ChangedFields(p, WithCW(s, q)) <==> f == CW;
  }

  /** Whatever a radio does, short of the two things a delta cannot say, a client that starts level
      with the cache and is sent every event stays level with it: every field the cache holds is
      the field the client shows. */
  lemma {:induction false} StaysLevel(c: Cache, v: Picture, start: State, radio: Id, changes: seq<Change>, now: int, timeout: int)
    requires Level(c, v, start) && AllCarried(c, radio, changes, now, timeout)
    ensures var (d, w) := Watch(c, v, radio, changes, now, timeout); Level(d, w, start)
    decreases |changes|
  {
    hide Level, Update, Refresh, Shown, KeepsAudio, KeepsCalibration, ValidPatch, RadioState.Apply;
    if changes != [] {
      match changes[0]
      case Report(p, kind, reason) => ReportLevel(c, v, start, radio, p, kind, reason, now, timeout);
      case Queue(q) => QueueLevel(c, v, start, radio, q, now);
    }
    if changes != [] {
      var d := Changed(c, radio, changes[0], now, timeout);
      StaysLevel(d, Shown(v, radio, c, d), start, radio, changes[1..], now, timeout);
    }
  }

  /** A snapshot makes any picture level, whatever it showed before. */
  lemma SnapshotLevels(c: Cache, v: Picture, start: State, radio: Id, at: int)
    requires Faithful(c, start)
    ensures Level(c, Received(v, WsClient.StateMsg(radio, c.num, at, c.state, true)), start)
  {}
}

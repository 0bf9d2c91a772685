/** Feeding a rig's own CW buffer (internal/cw/cat.go): one pacing goroutine, and callers that
    enqueue, replace, abort and close between any two of its critical sections. */
module CatSender {
  import opened Basics
  import opened Morse
  import opened Timing
  import opened Chunks

  // A chunk in the queue, under the number it was given there.
  datatype Job = Job(id: nat, chunk: Chunk)

  // A chunk handed to the rig and, by the estimate, still sounding until doneAt.
  datatype Flight = Flight(chars: nat, doneAt: int)

  // What the mutex guards. Contexts are numbered; ctx is the current one. The zero time of an
  // idle drain model is 0, which no clock reading is before.
  datatype Pacer = Pacer(
    queue: seq<Job>, inflight: seq<Flight>, drainAt: int, sending: bool,
    wpm: int, nextID: nat, closed: bool, ctx: nat)

  datatype EnqueueError = Closed | BadText(at: CharsetError) | Unbuildable(why: BuildError)

  // ---- the critical sections, as functions ----

  function Number(chunks: seq<Chunk>, id: nat): seq<Job> {
    if chunks == [] then [] else [Job(id + 1, chunks[0])] + Number(chunks[1..], id + 1)
  }

  function DoEnqueue(s: Pacer, chunks: seq<Chunk>, replace: bool): Pacer {
    if s.closed then s
    else s.(queue := (if replace then [] else s.queue) + Number(chunks, s.nextID), nextID := s.nextID + |chunks|)
  }

  function DoAbort(s: Pacer): Pacer {
    s.(queue := [], inflight := [], drainAt := 0, ctx := if s.closed then s.ctx else s.ctx + 1)
  }

  function DoClose(s: Pacer): Pacer {
    if s.closed then s else s.(closed := true, queue := [])
  }

  predicate Committable(s: Pacer, job: Job, ctx: nat) {
    !s.closed && s.ctx == ctx && s.queue != [] && s.queue[0].id == job.id
  }

  function DoCommit(s: Pacer): Pacer
    requires s.queue != []
  {
    s.(queue := s.queue[1..], sending := true)
  }

  /** A chunk starts sounding when the one before it ends, not when it is written. */
  function DoRecord(s: Pacer, c: Chunk, now: int): Pacer {
    var doneAt := (if s.drainAt > now then s.drainAt else now) + EstimateTime(c.canon, s.wpm, NEUTRAL_WEIGHT);
    s.(drainAt := doneAt, inflight := s.inflight + [Flight(c.chars, doneAt)])
  }

  /** What the model calls finished: everything whose time has come, wherever it stands. */
  function Unfinished(fs: seq<Flight>, now: int): seq<Flight> {
    if fs == [] then [] else
      var front := Unfinished(fs[..|fs| - 1], now);
      if fs[|fs| - 1].doneAt > now then front + [fs[|fs| - 1]] else front
  }

  predicate Sorted(fs: seq<Flight>) { forall i, j :: 0 <= i < j < |fs| ==> fs[i].doneAt <= fs[j].doneAt }

  /** The drain model: flights end in the order they were sent, the last when the rig falls silent. */
  predicate DrainModel(s: Pacer) {
    Sorted(s.inflight) && (s.inflight != [] ==> s.inflight[|s.inflight| - 1].doneAt == s.drainAt)
  }

  class Sender {
    var queue: seq<Job>
    var inflight: seq<Flight>
    var drainAt: int
    var sending: bool
    var wpm: int
    var nextID: nat
    var closed: bool
    var ctx: nat
    const maxChunk: int
    const charset: string
    const encode: Encoder

    ghost function View(): Pacer reads this { Pacer(queue, inflight, drainAt, sending, wpm, nextID, closed, ctx) }

    constructor (maxChunk: int, charset: string, encode: Encoder, wpm: int)
      ensures View() == Pacer([], [], 0, false, wpm, 0, false, 0)
      ensures this.maxChunk == maxChunk && this.charset == charset && this.encode == encode
    {
      this.maxChunk, this.charset, this.encode, this.wpm := maxChunk, charset, encode, wpm;
      queue, inflight, drainAt, sending, nextID, closed, ctx := [], [], 0, false, 0, false, 0;
    }

    /** Accepted text leaves as the chunks of its upper-cased form; anything else leaves no trace. */
    method Enqueue(text: string, replace: bool) returns (r: Result<nat, EnqueueError>)
      modifies this
      ensures var up := UpperString(text);
        var accepted := forall i :: 0 <= i < |up| ==> AcceptedAt(up, charset, i);
        var built := Build(up, maxChunk, encode);
        && (r.Ok? <==> accepted && built.Ok? && !old(closed))
        && (r.Ok? ==> r.value == |text| && View() == DoEnqueue(old(View()), built.value, replace))
        && (r.Err? ==> View() == old(View()))
        && (r.Err? && r.error.BadText? <==> !accepted)
        && (r.Err? && r.error.Unbuildable? <==> accepted && built.Err?)
    {
      hide Build, AcceptedAt;
      var up := UpperString(text);
      var bad := Validate(up, charset);
      if bad.Some? { return Err(BadText(bad.value)); }
      var chunks := BuildChunks(up, maxChunk, encode);
      if chunks.Err? { return Err(Unbuildable(chunks.error)); }
      if closed { return Err(Closed); }
      if replace { queue := []; }
      Append(chunks.value);
      r := Ok(|text|);
    }

    method Append(chunks: seq<Chunk>)
      modifies this`queue, this`nextID
      ensures queue == old(queue) + Number(chunks, old(nextID)) && nextID == old(nextID) + |chunks|
    {
      for i := 0 to |chunks|
        invariant nextID == old(nextID) + i
        invariant queue + Number(chunks[i..], nextID) == old(queue) + Number(chunks, old(nextID))
      {
        assert chunks[i..][1..] == chunks[i + 1..];
        nextID := nextID + 1;
        queue := queue + [Job(nextID, chunks[i])];
      }
    }

    method Abort() returns (cancelled: nat)
      modifies this
      ensures View() == DoAbort(old(View())) && cancelled == old(ctx)
    {
      queue, inflight, drainAt := [], [], 0;
      cancelled := ctx;
      if !closed { ctx := ctx + 1; }
    }

    method Close()
      modifies this
      ensures View() == DoClose(old(View()))
    {
      if closed { return; }
      closed, queue := true, [];
    }

    /** The section that takes the head, if it is still the chunk the wait was for. */
    method Commit(job: Job, c: nat) returns (ok: bool)
      modifies this
      ensures ok <==> Committable(old(View()), job, c)
      ensures View() == if ok then DoCommit(old(View())) else old(View())
    {
      if closed || ctx != c || queue == [] || queue[0].id != job.id { return false; }
      queue := queue[1..];
      sending := true;
      ok := true;
    }

    method Record(c: Chunk, now: int)
      modifies this
      ensures View() == DoRecord(old(View()), c, now).(sending := false)
    {
      sending := false;
      var start := now;
      if drainAt > now { start := drainAt; }
      var d := Estimate(c.canon, wpm, NEUTRAL_WEIGHT);
      drainAt := start + d;
      inflight := inflight + [Flight(c.chars, drainAt)];
    }

    /** Dropping the finished prefix is dropping everything finished. */
    method Prune(now: int)
      requires Sorted(inflight)
      modifies this`inflight
      ensures inflight == Unfinished(old(inflight), now)
    {
      var i := 0;
      while i < |inflight| && inflight[i].doneAt <= now
        invariant i <= |inflight|
        invariant forall k :: 0 <= k < i ==> inflight[k].doneAt <= now
      {
        i := i + 1;
      }
      PrefixIsFinished(inflight, i, now);
      inflight := inflight[i..];
    }
  }

  lemma {:induction false} PrefixIsFinished(fs: seq<Flight>, i: nat, now: int)
    requires Sorted(fs) && i <= |fs|
    requires forall k :: 0 <= k < i ==> fs[k].doneAt <= now
    requires i < |fs| ==> fs[i].doneAt > now
    ensures Unfinished(fs, now) == fs[i..]
  {
    if fs != [] {
      var front := fs[..|fs| - 1];
      assert Sorted(front);
      assert i < |fs| ==> fs[i].doneAt <= fs[|fs| - 1].doneAt;
      hide Sorted;
      PrefixIsFinished(front, if i == |fs| then i - 1 else i, now);
      UnfinishedLast(fs, now);
      hide Unfinished;
      if i == |fs| { assert front[i - 1..] == []; } else { assert front[i..] + [fs[|fs| - 1]] == fs[i..]; }
    }
  }

  lemma UnfinishedLast(fs: seq<Flight>, now: int)
    requires fs != []
    ensures Unfinished(fs, now) == Unfinished(fs[..|fs| - 1], now) + (if fs[|fs| - 1].doneAt > now then [fs[|fs| - 1]] else [])
  {}

  lemma {:induction false} UnfinishedKeeps(s: Pacer, now: int)
    requires DrainModel(s)
    ensures DrainModel(s.(inflight := Unfinished(s.inflight, now)))
    ensures |Unfinished(s.inflight, now)| <= |s.inflight|
  {
    var i := FirstUnfinished(s.inflight, now);
    PrefixIsFinished(s.inflight, i, now);
  }

  function FirstUnfinished(fs: seq<Flight>, now: int): (i: nat)
    ensures i <= |fs| && (forall k :: 0 <= k < i ==> fs[k].doneAt <= now) && (i < |fs| ==> fs[i].doneAt > now)
  {
    if fs == [] || fs[0].doneAt > now then 0 else
      var rest := FirstUnfinished(fs[1..], now);
      assert forall k :: 0 < k <= rest ==> fs[k] == fs[1..][k - 1];
      rest + 1
  }

  lemma RecordKeeps(s: Pacer, c: Chunk, now: int)
    requires DrainModel(s)
    ensures DrainModel(DoRecord(s, c, now))
  {
    GapsPositive(s.wpm, NEUTRAL_WEIGHT);
    TolerantParses(c.canon, 0);
    TimeNonNegative(NewTiming(s.wpm, NEUTRAL_WEIGHT), ParseFrom(c.canon, 0, true).value, false, false);
    hide NewTiming, ParseFrom, SymbolsTime, Positive;
    assert EstimateTime(c.canon, s.wpm, NEUTRAL_WEIGHT) >= 0;
  }

  // ---- the protocol ----

  // Where the pacing goroutine is, with the head and the context it picked up.
  datatype Pc =
    | Idle
    | Waiting(job: Job, ctx: nat)
    | Roomy(job: Job, ctx: nat)
    | Sending(job: Job, ctx: nat)
    | Failing
    | Done

  // committed are the chunks handed to the rig, in order, and rooms what the rig had last said of
  // its room as each of them was; dropped are the numbers discarded unsent; dead the contexts
  // cancelled; asked every chunk ever accepted. report is what the rig has last said since the
  // goroutine picked its chunk up.
  datatype World = World(
    s: Pacer, pc: Pc, dead: set<nat>, committed: seq<Job>, dropped: set<nat>,
    asked: seq<Chunk>, report: Option<nat>, rooms: seq<Option<nat>>)

  // open says the rig cannot be asked how full it is; depth is chunks_in_flight.
  datatype Rig = Rig(open: bool, depth: nat)

  datatype Step =
    | Enqueue(chunks: seq<Chunk>, replace: bool)
    | Abort
    | Cancel(ctx: nat)
    | Close
    | Status(now: int)
    | SetSpeed(wpm: int)
    | Peek
    | Poll(now: int, free: nat)
    | WaitError(canceled: bool)
    | Commit
    | Sent(now: int)
    | SendError(canceled: bool)
    | Fail

  predicate Enabled(w: World, st: Step) {
    match st
    case Cancel(c) => c != w.s.ctx || w.s.closed
    case Peek => w.pc.Idle? && (w.s.closed || w.s.queue != [])
    case Poll(_, _) => w.pc.Waiting?
    case WaitError(_) => w.pc.Waiting?
    case Commit => w.pc.Roomy?
    case Sent(_) => w.pc.Sending?
    case SendError(_) => w.pc.Sending?
    case Fail => w.pc.Failing?
    case _ => true
  }

  function Ids(js: seq<Job>): set<nat> { set j | j in js :: j.id }

  function Pruned(s: Pacer, now: int): Pacer { s.(inflight := Unfinished(s.inflight, now)) }

  // Everything queued is discarded when a step empties the queue without sending it.
  function Discard(w: World, s: Pacer): World { w.(s := s, dropped := w.dropped + Ids(w.s.queue)) }

  function AfterError(w: World, ctx: nat, canceled: bool): Pc {
    if ctx in w.dead || canceled then Idle else Failing
  }

  function Next(w: World, st: Step, rig: Rig): World
    requires Enabled(w, st)
  {
    match st
    case Enqueue(chunks, replace) =>
      var asked := if w.s.closed then w.asked else w.asked + chunks;
      if replace && !w.s.closed then Discard(w.(asked := asked), DoEnqueue(w.s, chunks, true))
      else w.(s := DoEnqueue(w.s, chunks, replace), asked := asked)
    case Abort => Discard(w, DoAbort(w.s))
    case Cancel(c) => w.(dead := w.dead + {c})
    case Close => Discard(w, DoClose(w.s))
    case Status(now) => w.(s := Pruned(w.s, now))
    case SetSpeed(wpm) => w.(s := w.s.(wpm := wpm))
    case Peek => w.(pc := if w.s.closed then Done else Waiting(w.s.queue[0], w.s.ctx), report := None)
    case Poll(now, free) =>
      if rig.open then
        var s := Pruned(w.s, now);
        w.(s := s, pc := if |s.inflight| > rig.depth then w.pc else Roomy(w.pc.job, w.pc.ctx))
      else w.(report := Some(free), pc := if |w.pc.job.chunk.encoded| <= free then Roomy(w.pc.job, w.pc.ctx) else w.pc)
    case WaitError(canceled) => w.(pc := AfterError(w, w.pc.ctx, canceled))
    case Commit =>
      if Committable(w.s, w.pc.job, w.pc.ctx)
      then w.(s := DoCommit(w.s), pc := Sending(w.pc.job, w.pc.ctx), committed := w.committed + [w.pc.job], rooms := w.rooms + [w.report])
      else w.(pc := Idle)
    case Sent(now) => w.(s := DoRecord(w.s, w.pc.job.chunk, now).(sending := false), pc := Idle)
    case SendError(canceled) => w.(s := w.s.(sending := false), pc := AfterError(w, w.pc.ctx, canceled))
    case Fail => Discard(w.(pc := Idle), w.s.(queue := []))
  }

  // ---- what every step keeps ----

  /** Committed, then still to go. */
  function Line(w: World): seq<Job> { w.committed + w.s.queue }

  predicate Ascending(js: seq<Job>) { forall i, j :: 0 <= i < j < |js| ==> js[i].id < js[j].id }

  predicate HasId(js: seq<Job>, id: nat) { exists i :: 0 <= i < |js| && js[i].id == id }

  /** Every number given out is on the line or dropped, never both, and the line ascends. */
  ghost predicate Partition(line: seq<Job>, dropped: set<nat>, nextID: nat) {
    && Ascending(line)
    && (forall i :: 0 <= i < |line| ==> 1 <= line[i].id <= nextID && line[i].id !in dropped)
    && (forall id :: id in dropped ==> 1 <= id <= nextID)
    && (forall id: nat :: 1 <= id <= nextID ==> id in dropped || HasId(line, id))
  }

  /** The head the goroutine picked up is the queue's, or has left it for good. */
  predicate Held(w: World) {
    w.pc.Waiting? || w.pc.Roomy? ==>
      w.pc.job.id <= w.s.nextID && (w.s.queue != [] && w.s.queue[0].id == w.pc.job.id ==> w.s.queue[0] == w.pc.job)
  }

  predicate Bounded(w: World, rig: Rig) {
    rig.open ==> |w.s.inflight| <= rig.depth + (if w.pc.Roomy? || w.pc.Sending? then 0 else 1)
  }

  ghost predicate Tidy(w: World, rig: Rig) {
    && Partition(Line(w), w.dropped, w.s.nextID)
    && Held(w) && Bounded(w, rig) && DrainModel(w.s)
    && (w.s.sending <==> w.pc.Sending?)
    && (w.s.closed ==> w.s.queue == [])
  }

  lemma {:induction false} NumberIds(chunks: seq<Chunk>, id: nat)
    ensures var js := Number(chunks, id);
      |js| == |chunks| && forall i :: 0 <= i < |js| ==> js[i] == Job(id + 1 + i, chunks[i])
  {
    if chunks != [] { NumberIds(chunks[1..], id + 1); }
  }

  lemma PartitionAdd(line: seq<Job>, dropped: set<nat>, nextID: nat, chunks: seq<Chunk>)
    requires Partition(line, dropped, nextID)
    ensures Partition(line + Number(chunks, nextID), dropped, nextID + |chunks|)
  {
    NumberIds(chunks, nextID);
    var all := line + Number(chunks, nextID);
    forall id: nat | 1 <= id <= nextID + |chunks| && id !in dropped ensures HasId(all, id) {
      if id <= nextID {
        var i :| 0 <= i < |line| && line[i].id == id;
        assert all[i].id == id;
      } else {
        assert all[|line| + (id - nextID - 1)].id == id;
      }
    }
  }

  lemma PartitionDrop(sent: seq<Job>, queue: seq<Job>, dropped: set<nat>, nextID: nat)
    requires Partition(sent + queue, dropped, nextID)
    ensures Partition(sent, dropped + Ids(queue), nextID)
  {
    var line := sent + queue;
    assert forall i :: 0 <= i < |sent| ==> line[i] == sent[i];
    assert forall i :: 0 <= i < |queue| ==> line[|sent| + i] == queue[i];
    forall i | 0 <= i < |sent| ensures sent[i].id !in Ids(queue) {
      assert line[i].id == sent[i].id;
    }
    forall id | id in Ids(queue) ensures 1 <= id <= nextID {
      var j :| j in queue && j.id == id;
      var k :| 0 <= k < |queue| && queue[k] == j;
      assert line[|sent| + k].id == id;
    }
    forall id: nat | 1 <= id <= nextID && id !in dropped + Ids(queue) ensures HasId(sent, id) {
      assert HasId(line, id);
      HasIdSplit(sent, queue, id);
    }
  }

  lemma HasIdSplit(sent: seq<Job>, queue: seq<Job>, id: nat)
    requires HasId(sent + queue, id) && id !in Ids(queue)
    ensures HasId(sent, id)
  {
    var line := sent + queue;
    assert forall k :: 0 <= k < |queue| ==> queue[k] in queue && line[|sent| + k] == queue[k];
    var i :| 0 <= i < |line| && line[i].id == id;
    assert sent[i].id == id;
  }

  lemma EnqueueTidy(w: World, chunks: seq<Chunk>, replace: bool, rig: Rig)
    requires Tidy(w, rig)
    ensures Tidy(Next(w, Enqueue(chunks, replace), rig), rig)
  {
    hide Partition, Sorted, Ids, Number;
    if !w.s.closed {
      var jobs := Number(chunks, w.s.nextID);
      NumberIds(chunks, w.s.nextID);
      if replace {
        PartitionDrop(w.committed, w.s.queue, w.dropped, w.s.nextID);
        PartitionAdd(w.committed, w.dropped + Ids(w.s.queue), w.s.nextID, chunks);
        assert [] + jobs == jobs;
      } else {
        PartitionAdd(Line(w), w.dropped, w.s.nextID, chunks);
        assert w.committed + (w.s.queue + jobs) == w.committed + w.s.queue + jobs;
      }
    }
  }

  lemma DiscardTidy(w: World, st: Step, rig: Rig)
    requires Tidy(w, rig) && Enabled(w, st) && (st.Abort? || st.Close? || st.Fail?)
    ensures Tidy(Next(w, st, rig), rig)
  {
    PartitionDrop(w.committed, w.s.queue, w.dropped, w.s.nextID);
    hide Partition;
    assert w.committed + [] == w.committed;
  }

  lemma CommitTidy(w: World, rig: Rig)
    requires Tidy(w, rig) && Enabled(w, Commit)
    ensures Tidy(Next(w, Commit, rig), rig)
  {
    hide Partition;
    if Committable(w.s, w.pc.job, w.pc.ctx) {
      assert Line(Next(w, Commit, rig)) == Line(w);
    }
  }

  lemma StepTidy(w: World, st: Step, rig: Rig)
    requires Tidy(w, rig) && Enabled(w, st)
    ensures Tidy(Next(w, st, rig), rig)
  {
    hide Partition, DrainModel;
    match st
    case Enqueue(chunks, replace) => EnqueueTidy(w, chunks, replace, rig);
    case Abort => DiscardTidy(w, st, rig);
    case Close => DiscardTidy(w, st, rig);
    case Fail => DiscardTidy(w, st, rig);
    case Commit => CommitTidy(w, rig);
    case Status(now) => UnfinishedKeeps(w.s, now);
    case Poll(now, _) => UnfinishedKeeps(w.s, now);
    case Sent(now) => SentTidy(w, now, rig);
    case SetSpeed(_) => SpeedTidy(w, st, rig);
    case _ => QuietTidy(w, st, rig);
  }

  lemma SentTidy(w: World, now: int, rig: Rig)
    requires Tidy(w, rig) && Enabled(w, Sent(now))
    ensures Tidy(Next(w, Sent(now), rig), rig)
  {
    RecordKeeps(w.s, w.pc.job.chunk, now);
    hide Partition, EstimateTime, Sorted;
  }

  lemma SpeedTidy(w: World, st: Step, rig: Rig)
    requires Tidy(w, rig) && st.SetSpeed?
    ensures Tidy(Next(w, st, rig), rig)
  {
    hide Partition, Sorted;
  }

  lemma QuietTidy(w: World, st: Step, rig: Rig)
    requires Tidy(w, rig) && Enabled(w, st) && (st.Cancel? || st.Peek? || st.WaitError? || st.SendError?)
    ensures Tidy(Next(w, st, rig), rig)
  {
    hide Sorted, HasId, Ascending;
    assert st.Peek? && !w.s.closed ==> Line(w)[|w.committed|] == w.s.queue[0];
  }

  // ---- whole runs ----

  predicate AllEnabled(w: World, steps: seq<Step>, rig: Rig)
    decreases |steps|
  {
    steps == [] || (Enabled(w, steps[0]) && AllEnabled(Next(w, steps[0], rig), steps[1..], rig))
  }

  function Outcome(w: World, steps: seq<Step>, rig: Rig): World
    requires AllEnabled(w, steps, rig)
    decreases |steps|
  {
    if steps == [] then w else Outcome(Next(w, steps[0], rig), steps[1..], rig)
  }

  function Begin(wpm: int): World { World(Pacer([], [], 0, false, wpm, 0, false, 0), Idle, {}, [], {}, [], None, []) }

  lemma {:induction false} RunTidy(w: World, steps: seq<Step>, rig: Rig)
    requires Tidy(w, rig) && AllEnabled(w, steps, rig)
    ensures Tidy(Outcome(w, steps, rig), rig)
    decreases |steps|
  {
    hide Tidy, Next, Enabled;
    if steps != [] {
      StepTidy(w, steps[0], rig);
      RunTidy(Next(w, steps[0], rig), steps[1..], rig);
    }
  }

  /** The commit protocol, under every interleaving: chunks reach the rig in the order they were
      numbered, every number given out is exactly one of sent, dropped and waiting, and with a
      rig that cannot be asked, no more than one chunk beyond chunks_in_flight is in it. */
  lemma CommitProtocol(wpm: int, steps: seq<Step>, rig: Rig)
    requires AllEnabled(Begin(wpm), steps, rig)
    ensures var w := Outcome(Begin(wpm), steps, rig);
      && Ascending(w.committed)
      && (forall id: nat :: 1 <= id <= w.s.nextID <==> id in w.dropped || HasId(w.committed, id) || HasId(w.s.queue, id))
      && (forall i :: 0 <= i < |w.committed| ==> w.committed[i].id !in w.dropped && !HasId(w.s.queue, w.committed[i].id))
      && (forall i :: 0 <= i < |w.s.queue| ==> w.s.queue[i].id !in w.dropped)
      && Sorted(w.s.inflight)
      && (rig.open ==> |w.s.inflight| <= rig.depth + 1)
  {
    BeginTidy(wpm, rig);
    hide *;
    RunTidy(Begin(wpm), steps, rig);
    var w := Outcome(Begin(wpm), steps, rig);
    TidyParts(w, rig);
    LineParts(w.committed, w.s.queue, w.dropped, w.s.nextID);
  }

  lemma BeginTidy(wpm: int, rig: Rig)
    ensures Tidy(Begin(wpm), rig)
  {}

  lemma TidyParts(w: World, rig: Rig)
    requires Tidy(w, rig)
    ensures Partition(w.committed + w.s.queue, w.dropped, w.s.nextID) && Sorted(w.s.inflight)
    ensures rig.open ==> |w.s.inflight| <= rig.depth + 1
  {
    hide Partition, Sorted;
  }

  lemma LineParts(sent: seq<Job>, queue: seq<Job>, dropped: set<nat>, nextID: nat)
    requires Partition(sent + queue, dropped, nextID)
    ensures Ascending(sent)
    ensures forall id: nat :: 1 <= id <= nextID <==> id in dropped || HasId(sent, id) || HasId(queue, id)
    ensures forall i :: 0 <= i < |sent| ==> sent[i].id !in dropped && !HasId(queue, sent[i].id)
    ensures forall i :: 0 <= i < |queue| ==> queue[i].id !in dropped
  {
    var line := sent + queue;
    assert forall i :: 0 <= i < |sent| ==> line[i] == sent[i];
    assert forall i :: 0 <= i < |queue| ==> line[|sent| + i] == queue[i];
    forall id: nat ensures HasId(line, id) <==> HasId(sent, id) || HasId(queue, id) {
      if HasId(line, id) {
        var i :| 0 <= i < |line| && line[i].id == id;
        if i < |sent| { assert sent[i].id == id; } else { assert queue[i - |sent|].id == id; }
      }
    }
  }

  // The chunks sent after before, none of which was discarded or waiting elsewhere.
  ghost predicate SentSince(before: seq<Job>, after: seq<Job>, waiting: seq<Job>, nextID: nat) {
    && before <= after
    && forall i :: |before| <= i < |after| ==> after[i] in waiting || after[i].id > nextID
  }

  lemma StepSends(w: World, st: Step, rig: Rig)
    requires Tidy(w, rig) && Enabled(w, st)
    ensures var m := Next(w, st, rig);
      && SentSince(w.committed, m.committed, w.s.queue, w.s.nextID)
      && m.s.nextID >= w.s.nextID && (w.s.closed ==> m.s.closed && m.committed == w.committed)
      && (forall j :: j in m.s.queue ==> j in w.s.queue || j.id > w.s.nextID)
  {
    hide Partition, DrainModel, EstimateTime, Unfinished;
    if st.Enqueue? {
      NumberIds(st.chunks, w.s.nextID);
      hide Number;
    }
  }

  lemma {:induction false} RunSends(w: World, steps: seq<Step>, rig: Rig)
    requires Tidy(w, rig) && AllEnabled(w, steps, rig)
    ensures var m := Outcome(w, steps, rig);
      && SentSince(w.committed, m.committed, w.s.queue, w.s.nextID)
      && (w.s.closed ==> m.committed == w.committed)
    decreases |steps|
  {
    hide Tidy, Next, Enabled;
    if steps != [] {
      StepTidy(w, steps[0], rig);
      StepSends(w, steps[0], rig);
      RunSends(Next(w, steps[0], rig), steps[1..], rig);
    }
  }

  /** An abort is final for everything enqueued before it: whatever is sent later was enqueued
      later. After a close nothing is sent at all. */
  lemma AbortIsFinal(w: World, steps: seq<Step>, rig: Rig)
    requires Tidy(w, rig) && AllEnabled(Next(w, Abort, rig), steps, rig)
    ensures var m := Outcome(Next(w, Abort, rig), steps, rig);
      w.committed <= m.committed && forall i :: |w.committed| <= i < |m.committed| ==> m.committed[i].id > w.s.nextID
  {
    hide AllEnabled, Outcome;
    StepTidy(w, Abort, rig);
    RunSends(Next(w, Abort, rig), steps, rig);
    hide Tidy;
  }

  lemma CloseIsFinal(w: World, steps: seq<Step>, rig: Rig)
    requires Tidy(w, rig) && AllEnabled(Next(w, Close, rig), steps, rig)
    ensures Outcome(Next(w, Close, rig), steps, rig).committed == w.committed
  {
    hide AllEnabled, Outcome;
    StepTidy(w, Close, rig);
    RunSends(Next(w, Close, rig), steps, rig);
    hide Tidy;
  }

  // ---- a rig that can be asked ----

  /** A rig that says how much room it has is given no chunk that does not fit into what it said
      since the chunk was picked up: neither the one at hand nor any sent before. */
  predicate Asked(w: World) {
    && |w.rooms| == |w.committed|
    && (w.pc.Roomy? || w.pc.Sending? ==> w.report.Some? && |w.pc.job.chunk.encoded| <= w.report.value)
    && (forall i :: 0 <= i < |w.rooms| ==> w.rooms[i].Some? && |w.committed[i].chunk.encoded| <= w.rooms[i].value)
  }

  lemma {:induction false} RoomIsAsked(w: World, steps: seq<Step>, rig: Rig)
    requires Asked(w) && AllEnabled(w, steps, rig) && !rig.open
    ensures Asked(Outcome(w, steps, rig))
    decreases |steps|
  {
    hide EstimateTime, Unfinished, Number, Ids;
    if steps != [] { RoomIsAsked(Next(w, steps[0], rig), steps[1..], rig); }
  }

  /** Over every run from the start. */
  lemma NothingTooLong(wpm: int, steps: seq<Step>, rig: Rig)
    requires AllEnabled(Begin(wpm), steps, rig) && !rig.open
    ensures var w := Outcome(Begin(wpm), steps, rig);
      && |w.rooms| == |w.committed|
      && forall i :: 0 <= i < |w.committed| ==> w.rooms[i].Some? && |w.committed[i].chunk.encoded| <= w.rooms[i].value
  {
    hide AllEnabled, Outcome;
    RoomIsAsked(Begin(wpm), steps, rig);
  }

  /** And room is used: as soon as the rig says that the chunk at hand fits, or the estimate that
      few enough are in flight, it is sent, unless the queue has moved on in the meantime. */
  lemma RoomIsUsed(w: World, now: int, free: nat, rig: Rig)
    requires w.pc.Waiting? && !w.s.closed && w.s.ctx == w.pc.ctx && w.s.queue != [] && w.s.queue[0] == w.pc.job
    ensures var p := Next(w, Poll(now, free), rig);
      var room := if rig.open then |Unfinished(w.s.inflight, now)| <= rig.depth else |w.pc.job.chunk.encoded| <= free;
      && (room <==> Enabled(p, Commit))
      && (room ==> Next(p, Commit, rig).committed == w.committed + [w.s.queue[0]])
      && (!room ==> p.pc == w.pc && p.committed == w.committed)
  {}

  // ---- what is sent is what was accepted ----

  /** Chunk number n is the nth accepted, wherever it stands. */
  predicate Nth(js: seq<Job>, asked: seq<Chunk>) {
    forall i :: 0 <= i < |js| ==> 1 <= js[i].id <= |asked| && js[i].chunk == asked[js[i].id - 1]
  }

  predicate Numbered(w: World) { |w.asked| == w.s.nextID && Nth(w.committed, w.asked) && Nth(w.s.queue, w.asked) }

  lemma EnqueueNumbered(w: World, chunks: seq<Chunk>, replace: bool, rig: Rig)
    requires Numbered(w)
    ensures Numbered(Next(w, Enqueue(chunks, replace), rig))
  {
    NumberIds(chunks, w.s.nextID);
    hide Number, Ids;
  }

  lemma StepNumbered(w: World, st: Step, rig: Rig)
    requires Held(w) && Numbered(w) && Enabled(w, st)
    ensures Numbered(Next(w, st, rig))
  {
    hide EstimateTime, Unfinished, Ids, Number;
    if st.Enqueue? {
      EnqueueNumbered(w, st.chunks, st.replace, rig);
      hide Next, Numbered;
    }
  }

  lemma {:induction false} RunNumbered(w: World, steps: seq<Step>, rig: Rig)
    requires Tidy(w, rig) && Numbered(w) && AllEnabled(w, steps, rig)
    ensures Numbered(Outcome(w, steps, rig))
    decreases |steps|
  {
    hide Next, Enabled, Numbered, Partition, DrainModel, Held, Bounded;
    if steps != [] {
      StepTidy(w, steps[0], rig);
      StepNumbered(w, steps[0], rig);
      hide Tidy;
      RunNumbered(Next(w, steps[0], rig), steps[1..], rig);
    }
  }

  /** What the rig has been handed are chunks accepted, each as it was; and a run that discarded
      nothing and has nothing left to send has handed over every one, once and in order. */
  lemma SendsTheText(wpm: int, steps: seq<Step>, rig: Rig)
    requires AllEnabled(Begin(wpm), steps, rig)
    ensures var w := Outcome(Begin(wpm), steps, rig);
      && Nth(w.committed, w.asked)
      && (w.dropped == {} && w.s.queue == [] ==>
            |w.committed| == |w.asked| && forall i :: 0 <= i < |w.asked| ==> w.committed[i].chunk == w.asked[i])
  {
    BeginTidy(wpm, rig);
    BeginNumbered(wpm);
    hide *;
    var w := Outcome(Begin(wpm), steps, rig);
    RunNumbered(Begin(wpm), steps, rig);
    CommitProtocol(wpm, steps, rig);
    NumberedParts(w);
    if w.dropped == {} && w.s.queue == [] { AllSent(w); }
  }

  lemma BeginNumbered(wpm: int)
    ensures Numbered(Begin(wpm))
  {}

  lemma NumberedParts(w: World)
    requires Numbered(w)
    ensures |w.asked| == w.s.nextID && Nth(w.committed, w.asked)
  {}

  lemma AllSent(w: World)
    requires Ascending(w.committed) && Nth(w.committed, w.asked) && |w.asked| == w.s.nextID && w.s.queue == [] && w.dropped == {}
    requires forall id: nat :: 1 <= id <= w.s.nextID <==> id in w.dropped || HasId(w.committed, id) || HasId(w.s.queue, id)
    ensures |w.committed| == |w.asked| && forall i :: 0 <= i < |w.asked| ==> w.committed[i].chunk == w.asked[i]
  {
    NobodyHas();
    NthBounds(w.committed, w.asked);
    hide HasId, Ascending, Nth;
    AllInTurn(w.committed, |w.asked|);
    forall i | 0 <= i < |w.asked| ensures w.committed[i].chunk == w.asked[i] { NthInTurn(w.committed, w.asked, i); }
  }

  lemma NobodyHas()
    ensures forall id: nat :: !HasId([], id)
  {}

  lemma NthBounds(js: seq<Job>, asked: seq<Chunk>)
    requires Nth(js, asked)
    ensures forall i :: 0 <= i < |js| ==> 1 <= js[i].id <= |asked|
  {}

  lemma NthInTurn(js: seq<Job>, asked: seq<Chunk>, i: nat)
    requires Nth(js, asked) && i < |js| && js[i].id == i + 1
    ensures i < |asked| && js[i].chunk == asked[i]
  {}

  lemma AllInTurn(js: seq<Job>, n: nat)
    requires Ascending(js) && (forall i :: 0 <= i < |js| ==> 1 <= js[i].id <= n)
    requires forall id: nat :: 1 <= id <= n ==> HasId(js, id)
    ensures |js| == n && forall i :: 0 <= i < |js| ==> js[i].id == i + 1
  {
    for i := 0 to |js|
      invariant forall k :: 0 <= k < i ==> js[k].id == k + 1
    {
      assert i > 0 ==> js[i - 1].id < js[i].id;
      assert HasId(js, i + 1);
    }
    assert n > |js| ==> HasId(js, |js| + 1);
    assert |js| > 0 ==> js[|js| - 1].id <= n;
  }

  // ---- how long the rig sounds ----

  // A chunk handed over, and when.
  datatype Handed = Handed(chunk: Chunk, at: int)

  function RecordAll(s: Pacer, hs: seq<Handed>): Pacer {
    if hs == [] then s else DoRecord(RecordAll(s, hs[..|hs| - 1]), hs[|hs| - 1].chunk, hs[|hs| - 1].at)
  }

  /** What chunks from k on take to sound, one after the other. */
  function Sounding(hs: seq<Handed>, k: nat, wpm: int): int
    requires k <= |hs|
    decreases |hs|
  {
    if k == |hs| then 0
    else Sounding(hs[..|hs| - 1], k, wpm) + EstimateTime(hs[|hs| - 1].chunk.canon, wpm, NEUTRAL_WEIGHT)
  }

  /** The rig falls silent after sounding everything it was handed without overlap: no sooner than
      any chunk and those after it take from the moment it was handed over, or than all of them take
      after what sounded before; and no later than the latest of these. Each flight counts its
      chunk's characters, and ends as that chunk does. */
  lemma DrainLaw(s: Pacer, hs: seq<Handed>)
    ensures var e := RecordAll(s, hs);
      && e.drainAt >= s.drainAt + Sounding(hs, 0, s.wpm)
      && (forall k :: 0 <= k < |hs| ==> e.drainAt >= hs[k].at + Sounding(hs, k, s.wpm))
      && (e.drainAt == s.drainAt + Sounding(hs, 0, s.wpm) || exists k :: 0 <= k < |hs| && e.drainAt == hs[k].at + Sounding(hs, k, s.wpm))
      && |e.inflight| == |s.inflight| + |hs| && e.inflight[..|s.inflight|] == s.inflight
      && (forall k :: 0 <= k < |hs| ==> e.inflight[|s.inflight| + k] == Flight(hs[k].chunk.chars, RecordAll(s, hs[..k + 1]).drainAt))
      && e == s.(drainAt := e.drainAt, inflight := e.inflight)
  {
    hide *;
    DrainTimes(s, hs);
    DrainFlights(s, hs);
  }

  lemma {:induction false} DrainTimes(s: Pacer, hs: seq<Handed>)
    ensures var e := RecordAll(s, hs);
      && e.drainAt >= s.drainAt + Sounding(hs, 0, s.wpm)
      && (forall k :: 0 <= k < |hs| ==> e.drainAt >= hs[k].at + Sounding(hs, k, s.wpm))
      && (e.drainAt == s.drainAt + Sounding(hs, 0, s.wpm) || exists k :: 0 <= k < |hs| && e.drainAt == hs[k].at + Sounding(hs, k, s.wpm))
      && e == s.(drainAt := e.drainAt, inflight := e.inflight)
    decreases |hs|
  {
    hide EstimateTime;
    if hs != [] {
      var front, h := hs[..|hs| - 1], hs[|hs| - 1];
      DrainTimes(s, front);
      hide Sounding;
      SoundingNext(hs, s.wpm);
      var b, e := RecordAll(s, front), RecordAll(s, hs);
      forall k | 0 <= k < |hs| ensures e.drainAt >= hs[k].at + Sounding(hs, k, s.wpm) {
        if k < |front| { assert front[k] == hs[k]; }
      }
      if b.drainAt <= h.at {
        assert e.drainAt == hs[|hs| - 1].at + Sounding(hs, |hs| - 1, s.wpm);
      } else if b.drainAt != s.drainAt + Sounding(front, 0, s.wpm) {
        var k :| 0 <= k < |front| && b.drainAt == front[k].at + Sounding(front, k, s.wpm);
        assert e.drainAt == hs[k].at + Sounding(hs, k, s.wpm);
      }
    }
  }

  lemma {:induction false} DrainFlights(s: Pacer, hs: seq<Handed>)
    ensures var e := RecordAll(s, hs);
      && |e.inflight| == |s.inflight| + |hs| && e.inflight[..|s.inflight|] == s.inflight
      && forall k :: 0 <= k < |hs| ==> e.inflight[|s.inflight| + k] == Flight(hs[k].chunk.chars, RecordAll(s, hs[..k + 1]).drainAt)
    decreases |hs|
  {
    hide EstimateTime;
    if hs != [] {
      var front, e := hs[..|hs| - 1], RecordAll(s, hs);
      DrainFlights(s, front);
      RecordLast(s, hs);
      hide RecordAll;
      forall k | 0 <= k < |hs| ensures e.inflight[|s.inflight| + k] == Flight(hs[k].chunk.chars, RecordAll(s, hs[..k + 1]).drainAt) {
        if k < |front| { assert front[..k + 1] == hs[..k + 1]; } else { assert hs[..k + 1] == hs; }
      }
    }
  }

  lemma RecordLast(s: Pacer, hs: seq<Handed>)
    requires hs != []
    ensures var e := RecordAll(s, hs);
      e.inflight == RecordAll(s, hs[..|hs| - 1]).inflight + [Flight(hs[|hs| - 1].chunk.chars, e.drainAt)]
  {
    hide EstimateTime;
  }

  lemma SoundingNext(hs: seq<Handed>, wpm: int)
    requires hs != []
    ensures var front := hs[..|hs| - 1];
      && Sounding(front, |front|, wpm) == 0
      && forall k :: 0 <= k < |hs| ==>
           Sounding(hs, k, wpm) == Sounding(front, k, wpm) + EstimateTime(hs[|hs| - 1].chunk.canon, wpm, NEUTRAL_WEIGHT)
  {
    hide EstimateTime;
  }

  // ---- giving up ----

  /** At an abort the rig is taken to be silent at once, and what was being waited or sent for is
      called off; a close leaves what the rig has already got. */
  lemma AbortEmpties(w: World, rig: Rig)
    ensures var a := Next(w, Abort, rig);
      && a.s.queue == [] && a.s.inflight == [] && a.s.drainAt == 0
      && (!w.s.closed ==> a.s.ctx != w.s.ctx)
      && a.committed == w.committed && a.dropped == w.dropped + Ids(w.s.queue)
    ensures var c := Next(w, Close, rig);
      c.s.inflight == w.s.inflight && c.s.drainAt == w.s.drainAt && c.committed == w.committed
  {}

  /** A wait or a send that ends because it was called off gives up nothing more; one that fails
      gives up the whole queue, and is over with that. */
  lemma ErrorsDiscard(w: World, canceled: bool, sending: bool, rig: Rig)
    requires if sending then w.pc.Sending? else w.pc.Waiting?
    ensures var m := Next(w, if sending then SendError(canceled) else WaitError(canceled), rig);
      && m.s == w.s.(sending := if sending then false else w.s.sending) && m.dropped == w.dropped
      && (canceled || w.pc.ctx in w.dead ==> m.pc == Idle)
      && (!canceled && w.pc.ctx !in w.dead ==>
            && Enabled(m, Fail)
            && var f := Next(m, Fail, rig); f.pc == Idle && f.s == m.s.(queue := []) && f.dropped == w.dropped + Ids(w.s.queue))
  {}
}

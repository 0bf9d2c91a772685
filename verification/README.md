# remoses: verified model

remoses puts amateur radio transceivers on a network. This project models the parts of it that are
hard to get right, and proves what they promise:

- the Morse pipeline: parsing canonical text, element timing and weighting, packing text into
  blocks a rig can buffer, keying a control line, and feeding a rig's own buffer;
- the event fan-out, from a session's publish through two bounded queues and a rate-limited
  client to the socket, with what becomes of every event;
- the state cache's algebra, its deltas, and the dead-man timer that hangs off it;
- advisory leases whose expiry timers may fire late;
- the multi-field change that is one ordered transaction of writes;
- matching replies to requests; packed decimal fields.

Each protocol is a state machine whose steps are the critical sections of the source's mutexes
(or one branch of a select), interleaved freely. A class mirrors the fields the source updates in
place; its methods are proved against functions on values, and the laws are lemmas about those
functions and about whole runs. `dafny verify dfyconfig.toml` checks everything.

## Files

| file | source |
|---|---|
| Basics.dfy | options, results, concatenation |
| Morse.dfy, MorseTable.dfy, Timing.dfy | internal/morse |
| Chunks.dfy, ChunkBreaks.dfy, CatSender.dfy | internal/cw/chunk.go, internal/cw/cat.go |
| KeySchedule.dfy, SerialKeyer.dfy, KeyerLedger.dfy, KeyerRest.dfy | internal/cw/serialkey.go |
| Events.dfy, Delivery.dfy, DeliveryContent.dfy | internal/rig/event.go, internal/rig/manager.go, and the whole path to the socket |
| WsClient.dfy, StateLane.dfy, NewestState.dfy, DrainMessages.dfy, FairOrder.dfy, ResyncLane.dfy | internal/ws/client.go |
| RadioState.dfy, DeltaMessage.dfy | internal/radio/types.go, internal/ws/message.go, internal/client/stream.go |
| ClientView.dfy | an update's whole way from the cache to a client's picture |
| SessionCache.dfy | internal/rig/session.go (update path, dead-man timer), internal/rig/supervisor.go |
| PatchRules.dfy, PatchTransaction.dfy, PatchMeaning.dfy | internal/rig/session.go (ApplyPatch) |
| Lease.dfy | internal/lock/lock.go |
| Correlation.dfy | internal/rig/conn.go |
| Bcd.dfy | internal/rig/backend/civ/bcd.go |

## Where the code is not what its comments say

The model follows the code. These are proved, each with the exact condition where there is one.

- A client's pending state event is overwritten by a newer one of the same radio, and only the newer
  one's delta is sent. That is enough exactly when the newer delta names every field the older one
  moved (`RadioState.CoalescingLoses`, `RadioState.CoalescingExample`).
- Transmit gain, speech processor and its level are stored and never published
  (`RadioState.AudioExample`); a signal meter reading without a calibrated figure leaves the previous
  figure on the client (`RadioState.CalibrationExample`). `RadioState.ClientFollows` says when a delta
  does bring a client level, in both directions.
- Weighting moves the length of a text by (one if it ends in a mark, less the spaces that follow
  another space once something is keyed) shifts, and so by more than one shift exactly when that number, readable off
  the text, is outside -1 to 1 and the shift is not zero (`Timing.WeightingOfText`); the text "A"
  followed by three spaces loses two (`Timing.WeightingExample`).
- A drop count survives the join of several sessions as "something was missed", not as a number:
  `Events.JoinCounts` says exactly when the number is kept.
- A lapsed lease that is checked, renewed, inspected or acquired before its timer gets the mutex ends
  without the callback that forces the radio to receive (`Lease.SeenLapseIsSilent`);
  `Lease.StepEnds` lists every way a lease can end.
- A serial keyer closed while it keys reports itself busy from then on, until something aborts it
  (`SerialKeyer.BusyAfterClose`, reached in `SerialKeyer.BusyCloseExample`).
- ForceRX is one attempt: if the radio goes on transmitting, no timer is set again until it is seen
  to stop, its link is lost, or a tuning cycle is started (`SessionCache.ForcedOnce`, from a state
  `SessionCache.ForcedExample` reaches).
- A frame already decoded when a request registers can still answer it (`Correlation.StaleReply`): it
  does exactly when, at that moment, the reader stood between decoding a wanted frame and delivering
  it (`Correlation.AnswersAreTimely`).
- Split, dual watch, break-in and tuning are judged by capability alone, not by whether the backend
  can do them. Every write of a legal request can be made if and only if the backend has the
  interfaces for what is asked (`PatchTransaction.PlanSupported`); `PatchTransaction.UnsupportedExample`
  is a legal request that asks for more.

## Model

| member | source | states |
|---|---|---|
| Morse.Parse | internal/morse/morse.go:237-287 | the scanning loop gives the grammar's parse of the whole text, strict or tolerant, errors with their offsets included |
| Morse.ParseKeepsText | internal/morse/morse.go:237-287 | nothing is lost: the symbols spell the text back, upper-cased |
| Morse.ParseIgnoresCase | internal/morse/morse.go:301-310 | upper-casing a text never changes its parse |
| Morse.ParseRoundTrip | internal/morse/morse.go:187-204 | parsing the canonical source of a parse gives the same symbols |
| Morse.ParseAccepts | internal/morse/morse.go:237-287 | the strict parse succeeds if and only if every position is well formed, and otherwise reports the first that is not, with its kind |
| Morse.TolerantParses | internal/morse/morse.go:237-287 | the tolerant parse never fails |
| Morse.ParsedSymbolsSound | internal/morse/morse.go:237-287 | in any parse exactly the word gaps key nothing |
| Morse.ProsignKeysItsLetters | internal/morse/morse.go:244-266 | a prosign is one symbol that keys what its letters key as plain text, in order |
| MorseTable.HeardRight | internal/morse/morse.go:41-73 | a listener who reads dots and dashes down the tree hears every character of the chart as itself, but the multiplication sign as X |
| MorseTable.NoneSoundAlike | internal/morse/morse.go:41-73 | no two characters key the same elements, but for case and those two |
| MorseTable.Punctuation | internal/morse/morse.go:58-72 | every punctuation mark keys the run of letters the chart names it by |
| MorseTable.CharsetIsKeyable | internal/morse/morse.go:93-107 | what is advertised is exactly what can be keyed, and the space |
| Morse.ParseConcat | internal/morse/morse.go:237-287 | a text cut anywhere but inside a prosign parses piecewise, error offsets included |
| Morse.DirtyCutMerges | internal/morse/morse.go:244-266 | a cut inside a prosign never parses piecewise: the pieces give one symbol more for each letter split off |
| Timing.SymbolsDuration | internal/morse/timing.go:116-140 | the loop over running flags computes the recursive duration of any symbols |
| Timing.Estimate | internal/morse/timing.go:157-163 | every text has a duration, never negative |
| Timing.GapsPositive | internal/morse/timing.go:67-87 | no weight closes up a mark or a gap: all are positive if and only if the speed has a unit at all |
| Timing.WeightingLaw | internal/morse/timing.go:46-87 | any symbols under any weight take their neutral time plus shift times (marks less gaps) |
| Timing.MarksLessGaps | internal/morse/timing.go:46-64 | that factor is one or zero, less one for every gap no mark pays for |
| Timing.WeightingOfText | internal/morse/timing.go:46-64 | for every parsed text the shift is moved by a count readable off the text; the total moves by at most one shift if and only if that count is -1, 0 or 1 or there is no shift, and always where no two spaces adjoin |
| Timing.WeightingExample | internal/morse/timing.go:46-64 | one mark and three spaces at 20 words a minute, weight 60: two shifts shorter |
| Timing.Paris | internal/morse/timing.go:19-24 | PARIS and its word gap are 50 units, at every speed and every weight |
| Timing.AMinute | internal/morse/timing.go:13-24 | at so many words a minute the estimate of PARIS so many times over is a minute, short of it by less than fifty nanoseconds a word, at every weight |
| Timing.WeightShare | internal/morse/timing.go:67-77 | a weight moves its share of a unit, truncated toward zero, alike on both sides of neutral; none is neutral, and out of range is the bound |
| Timing.TimeConcat | internal/morse/timing.go:116-140 | the time of two stretches of symbols is the sum, given what the first leaves behind |
| Chunks.Validate | internal/cw/chunk.go:39-54 | none if and only if every position suits the rig's character set, else the first that does not |
| Chunks.CharsetFoldsCase | internal/cw/chunk.go:51-55 | a rig's character set means its characters in either case |
| Chunks.AcceptedParses | internal/cw/chunk.go:39-55 | with a character set of characters Morse has, what validation accepts the strict parser accepts |
| Chunks.Split | internal/cw/chunk.go:115-143 | the nested loops give the pieces of the text, or the first group or unit that cannot be sent |
| Chunks.BuildChunks | internal/cw/chunk.go:75-106 | the accumulating loop packs those pieces greedily |
| Chunks.ChunksOfText | internal/cw/chunk.go:75-191 | chunks spell the text, fit the buffer, count its characters, and parsing them one by one is parsing the text, strictly and tolerantly: no prosign is ever split |
| Chunks.GreedyIsOptimal | internal/cw/chunk.go:84-105 | no order-preserving grouping of the same pieces into blocks that fit has fewer blocks |
| ChunkBreaks.BrokenWhereNeeded | internal/cw/chunk.go:57-74 | every chunk after the first begins at a word, or inside one that is wider than the buffer by itself, and with something unbreakable that no longer went into the chunk before |
| ChunkBreaks.ChunkWrites | internal/cw/chunk.go:75-106 | a chunk is the text from where the ones before it end, written as the encodings of its words and units one after the other |
| ChunkBreaks.BuildsExactly | internal/cw/chunk.go:75-143 | a text is taken if and only if the buffer holds something, every word can be written, and every unit of a word too wide can be and fits |
| ChunkBreaks.BuildRefuses | internal/cw/chunk.go:115-143 | a refusal says what is so: the buffer, the text that cannot be written, or the unit too wide and what it needs |
| ChunkBreaks.PiecesSpell | internal/cw/chunk.go:115-191 | the pieces are the words that fit and the units of those that do not, each as positions in the text |
| Chunks.EstimateSplits | internal/cw/chunk.go:75-163 | a text's estimate is its chunks' estimates plus, at each boundary, one letter gap or one word gap per leading space of the next chunk |
| Chunks.StrictIsTolerant | internal/morse/morse.go:237-287 | where the strict parse succeeds the tolerant one agrees |
| KeySchedule.Schedule | internal/cw/serialkey.go:379-462 | the marks of a whole transmission, each symbol at the speed it finds and whatever text comes late: every mark lasts its element; successive marks are an element gap, a letter gap, or the silence of the turns between them apart; the first opens when keying may begin; the end announced for a symbol is the end of its last mark; and at one speed, with text never late, the whole takes the estimate of its symbols |
| KeySchedule.KeysTheText | internal/cw/serialkey.go:444-460 | such a schedule keys every element of every symbol once, in order, one mark each |
| KeySchedule.ChainAt | internal/cw/serialkey.go:441-460 | the spacing holds between any two successive marks of the whole schedule |
| KeySchedule.SilenceBetween | internal/cw/serialkey.go:405-442 | while text keeps up, waiting for it costs nothing: a letter gap, or one word gap a space; after late text the silence counts from the last re-anchoring, and is longer than its spaces and a letter gap together |
| KeySchedule.MarksApart | internal/cw/serialkey.go:441-460 | at speeds with a unit no two marks of a transmission touch, late text or not |
| KeySchedule.QueuedText | internal/cw/serialkey.go:163-182 | whatever the keyer queues meets the schedule's assumption, and takes as long as its text's estimate |
| SerialKeyer.SerialSender.Enqueue | internal/cw/serialkey.go:163-196 | parse errors are restated with their rune and offset and change nothing; a closed sender refuses; a replace drops what was queued |
| SerialKeyer.SerialSender.Abort | internal/cw/serialkey.go:201-221 | new generation, empty queue, the abort channel closed and replaced unless the sender is closed, both lines down |
| SerialKeyer.SerialSender.Close | internal/cw/serialkey.go:260-279 | idempotent; the abort channel closed for good, both lines down |
| SerialKeyer.SerialSender.Assert | internal/cw/serialkey.go:313-325 | a line rises only for the current generation of an open sender; a failed write aborts |
| SerialKeyer.SerialSender.Next | internal/cw/serialkey.go:393-430 | a symbol is taken only by a live transmission |
| SerialKeyer.SerialSender.Finish | internal/cw/serialkey.go:370-377 | cleaning up touches the status only if the generation is still the transmission's |
| SerialKeyer.StepSafe | internal/cw/serialkey.go:207-221 | every step of keyer or caller keeps the line, channel, generation and wake-up invariants |
| SerialKeyer.Interlock | internal/cw/serialkey.go:310-463 | over every run: key down implies PTT where there is a PTT line, a keyer not transmitting holds neither line, no channel is closed twice, an open sender's is open, and the keyer never sleeps over queued text with nothing to wake it |
| SerialKeyer.AbortIsFinal | internal/cw/serialkey.go:201-221 | after an abort both lines are down, and every line that ever rises again belongs to a generation later than any that keyed before |
| SerialKeyer.CloseIsFinal | internal/cw/serialkey.go:260-279 | after a close no line is up, or goes up, ever again |
| SerialKeyer.BusyMeansKeying | internal/cw/serialkey.go:369-377 | an open sender that says it is busy is keying the current generation |
| SerialKeyer.BusyAfterClose | internal/cw/serialkey.go:260-279 | after a close and without an abort the busy flag is for ever what it was at the close; an abort clears it |
| SerialKeyer.BusyCloseExample | internal/cw/serialkey.go:260-279 | a run from the start to the edge of a character, where a close leaves a closed sender that is busy |
| KeyerLedger.StepKeeps | internal/cw/serialkey.go:379-462 | no step of caller or keyer loses, doubles or moves an element: what was keyed, what survives of the debt, and what comes in, in that order, is what is keyed and owed afterwards |
| KeyerLedger.EveryElement | internal/cw/serialkey.go:163-221 | over every run each element accepted is keyed once, still owed, or given up by an abort, a close, a replacement or a failed raise; where nothing is given up they are keyed in the order of the text |
| KeyerLedger.EdgesAreMarks | internal/cw/serialkey.go:444-460 | a run that gives up and owes nothing raises the key once per mark of any schedule of its text, for the same elements |
| KeyerLedger.StatusCounts | internal/cw/serialkey.go:223-246 | over every run that drops no queue the status counts the characters accepted less those of the symbols done, and is idle only with all of them done |
| SerialKeyer.SerialSender.Status | internal/cw/serialkey.go:223-246 | the loop counts the symbol in hand and everything queued |
| KeyerRest.ComesToRest | internal/cw/serialkey.go:332-463 | from any reachable state a keyer left alone, with lines that work, keys everything it owes, in order, and comes to rest with both lines down |
| KeyerRest.TextInTail | internal/cw/serialkey.go:400-419 | text that comes in the PTT tail goes on in the same transmission, PTT staying up |
| CatSender.Sender.Enqueue | internal/cw/cat.go:155-180 | text is queued if and only if the character set accepts it, it can be chunked and the sender is open; then as the numbered chunks of its upper-cased form |
| CatSender.Sender.Commit | internal/cw/cat.go:295-302 | the head is taken only if it is still the chunk, and the context, the wait was for |
| CatSender.Sender.Record | internal/cw/cat.go:306-311 | the drain model's step: a chunk sounds from the later of now and the previous end |
| CatSender.Sender.Prune | internal/cw/cat.go:376-382 | dropping the finished prefix drops exactly the finished flights |
| CatSender.RecordKeeps | internal/cw/cat.go:367-374 | flights stay sorted, the last one ending when the rig falls silent |
| CatSender.StepTidy | internal/cw/cat.go:270-317 | every step keeps the partition of ids, the ascending line and the flight bound |
| CatSender.CommitProtocol | internal/cw/cat.go:155-362 | over every run: committed ids strictly ascend; every id given out is exactly one of sent, dropped and queued; open loop, at most chunks_in_flight + 1 chunks are in flight |
| CatSender.NothingTooLong | internal/cw/cat.go:318-337 | over every run with a rig that can be asked, each chunk sent fits the room the rig last reported since it was picked up |
| CatSender.RoomIsUsed | internal/cw/cat.go:288-361 | and once there is room, by report or by estimate, the chunk at the head is what is sent next |
| CatSender.SendsTheText | internal/cw/cat.go:155-317 | what is sent are chunks as they were accepted; a run that discards nothing and leaves nothing has sent all of them, once and in order |
| CatSender.DrainLaw | internal/cw/cat.go:306-311 | the rig is taken to fall silent when it has sounded all it was given without overlap: the latest, over every chunk, of the moment it was given and the estimates of it and all after it |
| CatSender.AbortEmpties | internal/cw/cat.go:185-211 | an abort empties queue and drain model and calls off what is under way; a close leaves what the rig has got |
| CatSender.ErrorsDiscard | internal/cw/cat.go:281-317 | a wait or send that fails gives up the whole queue, one that was called off nothing more |
| CatSender.AbortIsFinal | internal/cw/cat.go:185-211 | nothing enqueued before an abort is committed after it |
| CatSender.CloseIsFinal | internal/cw/cat.go:253-268 | after a close nothing is committed |
| Events.Subscribers.Publish | internal/rig/event.go:118-134 | every open subscription gets the event with its drop count, or counts one more drop |
| Events.Aggregate.Forward | internal/rig/manager.go:231-244 | the join adds its own count to the event's, or counts one more drop |
| Events.DropsAreExact | internal/rig/event.go:118-134 | over any interleaving of publishing and reading, what was read, reported missed, waiting and counted adds up to what was published |
| Events.JoinCounts | internal/rig/manager.go:231-244 | the join keeps the count if and only if it has room or the event carried none; a count never becomes zero |
| WsClient.Client.EnqueueEvent | internal/ws/client.go:173-248 | one event in: resync flags, event lane, coalescing lane and order, as the lane functions say (NewestState.LastValueWins: the newest is kept) |
| WsClient.Client.Subscribe | internal/ws/client.go:261-314 | a new subscription keeps what it still covers, in order, and owes a snapshot for every radio it adds |
| WsClient.Client.DrainDue | internal/ws/client.go:339-429 | a drain is the resync, event, snapshot and state passes in that order |
| WsClient.EnqueueGood | internal/ws/client.go:173-248 | taking an event in keeps the lanes consistent: order duplicate-free and exactly pending's keys, everything held subscribed, the event lane bounded |
| WsClient.SetRadiosGood | internal/ws/client.go:261-314 | so does changing the subscription |
| WsClient.DrainGood | internal/ws/client.go:339-429 | so does a drain |
| WsClient.DrainComplete | internal/ws/client.go:339-429 | after a drain all that is held is inside its rate limit, and the time returned is exactly the first due time, none if and only if nothing is held |
| StateLane.DeltasInOrder | internal/ws/client.go:395-458 | over every connection a radio's deltas have strictly increasing numbers, follow a snapshot, and keep the minimum interval |
| StateLane.StartSound | internal/ws/client.go:107-135 | a new connection meets that run's starting condition |
| NewestState.LastValueWins | internal/ws/client.go:215-226 | over every connection what waits of a radio is the last event taken of it, whole; where nothing waits something as new was sent |
| NewestState.NewestReaches | internal/ws/client.go:395-458 | every event taken of a radio the client stays with is answered for: as new an event waits, or a message as new was sent; and the first drain past the rate limit leaves only the second |
| DrainMessages.DrainSays | internal/ws/client.go:330-458 | a drain sends exactly the messages due, each with its own fields: resyncs with the last number sent, the event lane, the snapshots owed as cached, and newer state as changed fields or whole |
| FairOrder.FirstComeFirstServed | internal/ws/client.go:215-226 | over every connection a drain tells of the radios' states in the order they began to wait, held-back ones keeping their place |
| ResyncLane.ResyncsSpaced | internal/ws/client.go:339-365 | over every connection a radio's resyncs keep the minimum interval |
| Delivery.NoSilentLoss | internal/ws/client.go:173-241 | end to end, over every interleaving: each published cw or conn event is written, still queued, lost with an alarm pending for its radio, or lost with a resync written after the loss; the one exception is a radio that was not subscribed at the publication, or that a later subscription left out |
| Delivery.FateMoves | internal/ws/client.go:173-314 | what a step may do to an event: write it, lose it at a full queue or lane (which dates the loss), report a loss already made, or drop it with its radio from the subscription; nothing else |
| Delivery.KeptIsNotExcused | internal/ws/client.go:261-314 | an event that counts goes on counting for as long as every new subscription names its radio |
| Delivery.StaysSubscribed | internal/ws/client.go:261-314 | and its radio stays subscribed that long |
| Delivery.WrittenInOrder | internal/ws/client.go:339-372 | what is written of one radio is in publication order |
| Delivery.StepInv | internal/rig/manager.go:183-257 | every step of the path keeps accounting and order |
| Delivery.DrainWrites | internal/ws/client.go:339-372 | a drain writes exactly the event lane, and clears no resync flag without sending the resync |
| DeliveryContent.WrittenIsTrue | internal/ws/client.go:199-214 | over every interleaving each cw or conn message written says what one published event says, field by field |
| RadioState.ApplyValid | internal/radio/types.go:810-995 | an update keeps a state well-formed and the transmit meters empty in receive |
| RadioState.ApplyDiff | internal/radio/types.go:1046-1184 | applying the difference redoes the update if and only if it left the transmit audio alone |
| RadioState.ClientFollows | internal/ws/message.go:117-273 | one delta brings a level client level again if and only if the transmit audio is untouched, no signal meter loses its calibrated figure, and no transmit meter lingers |
| RadioState.FoldLaw | internal/client/stream.go:117-137 | sent every delta, a client that starts level stays level |
| RadioState.CoalescingLoses | internal/ws/client.go:215-226 | sent only the second of two deltas, a client is level if and only if it names every field the first one moved |
| RadioState.CoalescingExample | internal/ws/client.go:432-458 | a frequency change overwritten by a mode change never reaches the client |
| RadioState.AudioExample | internal/radio/types.go:1046-1184 | a transmit gain change produces an empty difference |
| RadioState.CalibrationExample | internal/client/stream.go:117-137 | a reading without a calibrated figure leaves the stale one |
| DeltaMessage.ChangedObject | internal/ws/message.go:117-273 | the chain of branches names exactly the fields the delta law needs, the transmit meters as a group from the state, with the right values |
| ClientView.StaysLevel | internal/rig/session.go:388-465 | over any changes of a radio a delta can carry, updates and CW status alike, a client that starts level with the cache and is sent every event shows every field as the cache holds it |
| ClientView.ReportLevel | internal/ws/client.go:432-458 | one update, published, rendered and folded, leaves such a client level, silent updates included |
| SessionCache.Session.Apply | internal/rig/session.go:388-426 | stored always; numbered, interlocked and published only when something changed |
| SessionCache.Session.RefreshCW | internal/rig/session.go:431-465 | the CW status is published only when it changed |
| SessionCache.SilentUpdate | internal/rig/session.go:396-407 | an update publishes nothing if and only if it changed nothing but transmit audio |
| SessionCache.EventsFaithful | internal/rig/session.go:388-465 | over every run numbers have no gap and the newest event agrees with the cache but for transmit audio |
| SessionCache.EventsNumbered | internal/rig/session.go:397-425 | event k of a session carries number k and a non-empty patch |
| SessionCache.StepTells | internal/rig/session.go:388-465 | every update is stored; told, under its own kind and reason, with the difference it made and the state it left, if and only if it made one; a lost link and a new CW status likewise; nothing else is |
| SessionCache.PttInDiff | internal/rig/session.go:409-415 | the interlock is reached exactly by changes of transmit state, with the new state |
| SessionCache.DeadmanGuards | internal/rig/session.go:1935-1994 | in every reachable open state with a timeout, transmitting implies the timer runs to the last arming plus the timeout, or ForceRX was called since the radio went up |
| SessionCache.DeadmanOverRuns | internal/rig/session.go:1935-1994 | the same over every run, with "called since" and "link lost" said of the steps taken |
| SessionCache.TimerMoves | internal/rig/session.go:1968-1994 | the timer is set, for a whole timeout, exactly when the radio is seen to go up or a tuning cycle starts, cleared when it stops, is forced, lost or closed, and otherwise left alone |
| SessionCache.TimerForces | internal/rig/session.go:1935-1966 | a timer that has run out fires once and calls ForceRX |
| SessionCache.ForcedOnce | internal/rig/session.go:1935-1966 | from any transmitting state without a timer, none is set until PTT is seen to drop, the link is lost or a tuning cycle starts |
| SessionCache.ForcedExample | internal/rig/session.go:1935-1966 | a run to such a state: the radio goes up, and ForceRX finds it |
| Lease.Manager.Acquire | internal/lock/lock.go:142-168 | the new table and answer for every case of holder, force and configuration |
| Lease.Manager.Renew | internal/lock/lock.go:274-290 | likewise for a renewal, with its two clock readings |
| Lease.Manager.Release | internal/lock/lock.go:182-196 | only the holder's token removes a lease |
| Lease.Manager.Check | internal/lock/lock.go:203-228 | the gate, with its three clock readings |
| Lease.Manager.IsHolder | internal/lock/lock.go:233-244 | exactly the current holder's unexpired token |
| Lease.Manager.Inspect | internal/lock/lock.go:248-260 | a lapsed lease is removed, a live one shown without its token |
| Lease.Manager.Expire | internal/lock/lock.go:314-340 | the callback happens if and only if the timer's generation is still the radio's |
| Lease.AcquireTakes | internal/lock/lock.go:142-168 | another user's live lease is kept unless stealing is asked for and allowed; otherwise the lease is this user's, under this token, for a whole time-to-live, no other radio's is touched, and no earlier token survives |
| Lease.AcquiredPasses | internal/lock/lock.go:142-228 | and for that long the new holder passes the gate |
| Lease.RenewExtends | internal/lock/lock.go:274-290 | a renewal succeeds if and only if the token is the holder's and the lease has not run out, and gives the same user and token a whole time-to-live; each refusal says why |
| Lease.ReleaseEnds | internal/lock/lock.go:182-196 | a release ends exactly the lease of its token |
| Lease.CheckPasses | internal/lock/lock.go:203-228 | a check passes if and only if locking is off, or the token is the holder's and the lease has not run out at the last look, and then extends it a whole time-to-live; each refusal says why |
| Lease.InspectShows | internal/lock/lock.go:248-260 | an inspection shows exactly a live lease, its user and end, never its token |
| Lease.TokenStaysSecret | internal/lock/lock.go:203-260 | whoever does not hold the token gets the answers they would get were it any other |
| Lease.StepSane | internal/lock/lock.go:293-311 | every step keeps generations distinct, timers armed only for current leases and every lease guarded by a timer |
| Lease.CallsBackOnce | internal/lock/lock.go:314-340 | over every run each lease calls back at most once, never before it has run out, and no lease is without a timer |
| Lease.StepEnds | internal/lock/lock.go:142-340 | a step ends a lease if and only if it is a takeover of a lapsed, own or stolen one, a renewal or check with its token, its release, anything that finds it lapsed, the close, or its own timer; only the last calls back |
| Lease.EndedNeverCalls | internal/lock/lock.go:313-322 | a lease ended in any of the other ways never calls back, however late its timer |
| Lease.SupersededNeverCalls | internal/lock/lock.go:313-322 | a generation no lease carries any more never calls back |
| Lease.HowLeasesEnd | internal/lock/lock.go:293-340 | a step produces a lease's callback if and only if it is that lease's own timer |
| Lease.SeenLapseIsSilent | internal/lock/lock.go:142-290 | a lapse seen first by a check, a renewal, an inspection or the next user to acquire never calls back |
| Lease.DeadTokens | internal/lock/lock.go:203-228 | with fresh tokens, after any run every check, renewal and release with one that is no longer its radio's is refused |
| PatchRules.Clamp | internal/rig/session.go:1895-1927 | the clamp's branches compute the clamped power |
| PatchRules.ClampedWithinLimits | internal/rig/session.go:1895-1927 | what goes out obeys both limits wherever a scale exists, equals the request if that did, and clamps to itself; refused exactly for no or two scales, or watts without a scale |
| PatchRules.ClampedIsMost | internal/rig/session.go:1895-1927 | what goes out is the largest power within the limits that is no more than was asked for; which refusal tells why |
| PatchRules.CheckFrequency | internal/config/types.go:304-314 | in band, or no bands configured |
| PatchRules.ValidateTuning | internal/rig/session.go:1521-1607 | refuses if and only if some tuning or transmit rule is broken; out of band only for a frequency that is |
| PatchRules.ValidateFrontEnd | internal/rig/session.go:755-829 | refuses if and only if some front-end rule is broken |
| PatchRules.ValidateNoise | internal/rig/session.go:962-1025 | refuses if and only if some noise, notch or antenna rule is broken |
| PatchRules.ValidateTxAudio | internal/rig/session.go:902-929 | refuses if and only if some transmit audio rule is broken |
| PatchRules.Validate | internal/rig/session.go:1520-1624 | accepts exactly the legal requests, with the clamped power |
| PatchTransaction.Session.ApplyModePair | internal/rig/session.go:1473-1479 | one mode write, and a second without the data flag only after a refusal of a flag the request did not name |
| PatchTransaction.Session.ApplyPatch | internal/rig/session.go:1490-1818 | illegal or unreachable requests write nothing; otherwise the log grows by exactly the run of the request's plan |
| PatchTransaction.PlanOrdered | internal/rig/session.go:1647-1812 | the plan keeps one fixed order and asks for no operation twice |
| PatchTransaction.RunLawful | internal/rig/session.go:1653-1812 | any run is a prefix of its plan's items, each one write or a refused write and its retry, all but the last successful, and the whole plan if and only if nothing failed |
| PatchTransaction.TransactionLaw | internal/rig/session.go:1481-1490 | the trace in the one order; a write goes out only when everything earlier the request asks for has been achieved before it, and one that transmits only after everything that does not |
| PatchTransaction.TraceHonest | internal/rig/session.go:1473-1479 | each reply in a trace is what the backend answers to that write after everything sent before it |
| PatchTransaction.PlanInRules | internal/rig/session.go:1524-1526 | every frequency written is in band, every power within limits, and only a mode write has a second try |
| PatchMeaning.PlanMeans | internal/rig/session.go:1647-1812 | the plan of a legal request is, field by field, exactly the settings it names at its own values: the mode with what the request leaves out from the cache of the VFO it names, the power clamped |
| PatchMeaning.RequestDone | internal/rig/session.go:1481-1812 | whatever reaches the radio is one of those, or a mode's second try; and on a run without error every setting named has been accepted |
| PatchMeaning.PlanCapable | internal/rig/session.go:1516-1624 | whatever a legal request plans is within what the radio says it can do: the capability is there and the value is one it has |
| PatchMeaning.EmptyMeansNothing | internal/rig/session.go:1512-1514 | a request counts as empty if and only if its plan is |
| PatchMeaning.TuneInBand | internal/rig/session.go:1571-1576 | no tuning cycle is planned where the radio was known to stand out of band as the request was checked |
| PatchTransaction.OneFrequency | internal/rig/session.go:1653-1680 | of all a request plans exactly one item carries its frequency, by whichever path, and none if it names none |
| PatchTransaction.OneSlot | internal/rig/session.go:1686-1738 | likewise its filter slot, inside a named VFO's mode write or by itself |
| PatchTransaction.OnceOnTheWire | internal/rig/session.go:1647-1812 | in any trace frequency and filter slot go out for at most one item each, the frequency in one write, and a run without error achieves each one requested |
| PatchTransaction.PlanSupported | internal/rig/session.go:1602-1607 | everything a legal request plans can be made by the backend if and only if it has the interfaces for the split, dual watch, break-in and tuning asked for |
| PatchTransaction.UnsupportedExample | internal/rig/session.go:1769-1808 | a legal request for split to a backend without the interface |
| Correlation.Conn.Register | internal/rig/conn.go:215-226 | refused with the first error once closing, otherwise appended |
| Correlation.Conn.Unregister | internal/rig/conn.go:228-237 | removes that waiter, if it is still there |
| Correlation.Conn.Deliver | internal/rig/conn.go:155-173 | takes out the oldest waiter that asked for the key, and no other |
| Correlation.Conn.Fail | internal/rig/conn.go:178-189 | the first error is kept, and the transport closed once |
| Correlation.StepSafe | internal/rig/conn.go:244-286 | every step of caller or reader keeps the waiter table, channels and credits consistent |
| Correlation.RepliesMatch | internal/rig/conn.go:103-286 | over every run: one pending waiter, deliveries never block or drop, a result was asked for and handed over after registration, and every decodable frame is applied once in arrival order |
| Correlation.AnswersAreTimely | internal/rig/conn.go:239-286 | over every run, an answer is a frame decoded before its request registered if and only if the reader then stood about to deliver a wanted one, and it is that one |
| Correlation.StaleReply | internal/rig/conn.go:239-260 | a run in which it does |
| Correlation.FirstErrorWins | internal/rig/conn.go:175-213 | over every run the error kept is that of the first step that failed the connection, closing lasts from then on, and every call that fails with it is told that one |
| Correlation.ReplyReaches | internal/rig/conn.go:103-173 | where a call waits for the key of the next frame, reading it ends the call with it, and applies its patch |
| Correlation.CallLeaves | internal/rig/conn.go:228-237 | a call that has ended leaves no waiter behind and lets the next one in |
| Correlation.ReaderLeaves | internal/rig/conn.go:137-146 | a reader at the end of its input fails the connection, wakes whoever waits, and is gone |
| Correlation.CallsEnd | internal/rig/conn.go:258-286 | a waiting call is told the reply it was handed, accepted or rejected as the radio said, even one that came just before the reader stopped; else why it ended |
| Correlation.NothingForgotten | internal/rig/conn.go:100-146 | over every run each call but the one under way has been told how it ended, and each read takes the next frame, garbled or not |
| Bcd.EncodeFrequency | internal/rig/backend/civ/bcd.go:77-95 | refused if and only if beyond the width's limit, else the all-digit field that says the frequency |
| Bcd.DecodeFrequency | internal/rig/backend/civ/bcd.go:102-115 | accepted if and only if of either width and all digits, with what the field says |
| Bcd.FieldsAreCanonical | internal/rig/backend/civ/bcd.go:77-115 | a digit field says a number its width holds, and no other field of that width says it |
| Bcd.RoundTrip | internal/rig/backend/civ/bcd.go:77-115 | decode inverts encode for every frequency in range, and encode inverts decode for every digit field of either width |
| Bcd.DigitsInOrder | internal/rig/backend/civ/bcd.go:65-95 | digit by digit, a frequency field runs from the ones up, two to a byte, the lower in the lower half |
| Bcd.FrequencyExample | internal/rig/backend/civ/bcd.go:65-95 | 14.025678 MHz on the wire |
| Bcd.LevelRoundTrip | internal/rig/backend/civ/bcd.go:45-63 | the level field carries exactly 0 to 9999 |
| Bcd.LevelSays | internal/rig/backend/civ/bcd.go:43-63 | digit by digit, a level field runs from the thousands down |
| Bcd.FieldRoundTrip | internal/rig/backend/civ/bcd.go:50-63 | it accepts exactly digit fields of two bytes and re-encodes what it accepts |

## Left out

- HTTP routing, JSON decoding, authentication, configuration loading, the terminal interface and the self-test: plumbing over libraries.
- Transports, framing and per-model command bytes: the connection is a sequence of frames, decodable or not, and writes that may fail.
- Real clocks and threads: times are integers read at the steps that read them; waiting is "the time has come, or the abort channel is closed".
- Floating-point rounding, not-a-number values and 64-bit wrap-around: powers are real, counters unbounded.
- Text is a sequence of runes; byte encoding is not modelled, so a chunk's character count is its length.
- KeySchedule.Schedule: one transmission that nothing cuts short (what an abort does to it is KeyerLedger.EveryElement); an edge is at the instant it is scheduled for. The class SerialSender has no timing fields.
- SerialKeyer.Interlock: lowering a line is assumed to succeed; a raise that fails is the abort it causes.
- SerialKeyer.SerialSender.Status: the estimate of the time remaining is left out; so is the CAT sender's status.
- CatSender.CommitProtocol: what the rig does with a chunk, and its own abort command, are not modelled; any wait or send may fail at any time.
- Delivery.NoSilentLoss: events of one session enter its queue in number order; the source publishes after releasing the state lock, so this is an assumption about it. One client is followed, and its closing is not.
- StateLane.DeltasInOrder: the clock does not run back, and every subscribed radio has a session.
- RadioState.ApplyDiff: the per-field branches are grouped by how they treat a field (always present, live meter, transmit meter, optional, never compared), so Apply and Diff are functions over fields rather than chains of branches (changedFields is also a chain, DeltaMessage.ChangedObject); the sequence number and time stamp are outside the state.
- WsClient.Client.Subscribe: the in-place compaction of slices is a reassignment of sequences; reuse of the backing array is not captured.
- SessionCache.DeadmanGuards: an update and its side effects are one step; what ForceRX then sends to the radio is not modelled, only that it was called.
- PatchTransaction.Session.ApplyPatch: the read-back and the wait for PTT to settle are reads and are left out; where the source would call through a nil interface the model records the write, and PatchTransaction.PlanSupported says when that is.
- Lease.Manager.Acquire: tokens are parameters, assumed fresh where a law needs it; constant-time comparison is equality; the callback's own work is not modelled.
- Correlation.RepliesMatch: commands without a reply only hold the command mutex and are left out, as are the reply framer and the byte trace.
- ClientView.StaysLevel: each event is drained before the next one comes; what coalescing costs is RadioState.CoalescingLoses.
- WebSocket keepalive, write timeouts, tickets and message encoding: easy, or the library's.
- Supervisor backoff, standby and wake-up: finite loops with one-branch claims.

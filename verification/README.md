# OpenRecall, verified

A model of the capture wearable and its server, and proofs about whole runs of it. Check it with
`dafny verify dfyconfig.toml`.

Four planes are modelled. Code that updates state in place is a class or a method over arrays, each
proved equal to a step of a pure specification; the laws are about runs of those steps.

* Audio data. `RingBuffer` is the 3000-slot ring against the history of all frames ever pushed.
  `AudioTask` is its producer, which may run between any two reads. `DrainSpec` is the drainer's cursor,
  rewind and preroll over the history; `LiveDrain` is its loop over the real ring; `Replay` is the
  retrospective replay and `ReplaySlots` its frame slots. `Packing`, `C6Packet` and `AudioPacket` are the
  byte budget, the device's writer and the server's codec; `Link` is the notification with its retries.
  `Stream` composes them over a recorded history, and `DrainTask` ties the running drainer and what the
  link delivers to that: what the server decodes, against what the microphone task produced. `DrainLoop`
  is the whole drain loop, with replay requests served between the live turns, up to the server's parser.
* Commands. `Dispatcher` and `CommandStatus` are the server's tables, `Commands` the device's handler with
  its sixteen-entry dedupe ring, and `CommandPlane` interleaves them with a relay that loses, duplicates
  and reorders.
* Fixed-point filters. `Hpf`, `DcBlocker` and `Vad`, with C integer widths explicit.
* Timeline and bookkeeping. `EventStore`, `Gateway` and `Reconnects`; `MediaIndex` and `Transfer` (over
  `TextLines` and `Decimal`); `InferenceWorker`; `Button`.
* Shared: `CTypes`, `C6Types`, `Wrappers`, `Arithmetic`, `Sequences`.

A notification carries at most ATT_MTU-3 value bytes (Bluetooth Core Specification, Vol 3 Part F, section
3.4.7.1).

## Where the code and its documentation disagree

The model follows the code. Where a promise fails, the lemma named gives the exact condition or the input
that shows it.

* The drainer's rewind clips at frame 0 and does not fit a chunk of ten: speech that starts at frame 10
  after ten silent frames makes it read frames 0 to 9 for ever, as long as they are in the ring
  (`DrainSpec.DrainsIff`).
* "Execute only once" (`firmware/openrecall_sensor/main/commands.c:95`) fails sixteen other ids later
  (`Commands.ExecutedTwice`, `Commands.OnceWithRoomIff`, `Commands.AtMostOnceIff`), and since an id is
  remembered before the executor queue is asked, a command refused by a full queue is acked on redelivery
  without having run (`Commands.FirstDeliveryDecides`). Ids of 64 characters or more are never recognised,
  and the empty id is at first always (`Commands.RedeliveryRecognisedIff`,
  `Commands.EmptyIdAckedIff`).
* `drain_replay` has ten frame slots and no test for them. They suffice, whatever the producer does
  meanwhile, exactly when any eleven audible frames of the window together exceed the byte budget
  (`ReplaySlots.SlotsSafeIff`), which `Replay.DrainReplay` requires; for a window that is not overwritten,
  `ReplaySlots.TenPerPacketIff` is exact.
* An encoder failure pushes nothing, although the comment says it is treated as a gap
  (`AudioTask.PushFrame`, `AudioTask.OneFramePerCaptureIff`).
* A manifest over 8192 bytes whose 8192nd byte is a newline is rewritten without its rest
  (`Transfer.TailLostIff`).
* The failure summary counts "since the traceback above", but fifty working frames in a row restart
  the count without a new traceback (`InferenceWorker.SummaryCountIff`, `InferenceWorker.SummaryUndercounts`).
* A short press is documented as a tap held under a second, but the rest of a very long hold can count as
  one (`Button.VeryLongThenShort`, `Button.HoldsAreWholeIff`, `Button.GesturesAreWholeIff`).
* Deleting a session's newest event lets the next connection reuse its id
  (`Reconnects.NumberingGoesBackIff`).

## Model

| member | source | states |
|---|---|---|
| `Hpf.Filter.Process` | firmware/openrecall_sensor/main/hpf.c:18-43 | in place: the new samples are the outputs of the recurrence over the old ones and the memory moves on with them; every int32 and int64 operation of the C stays in range for any samples the filter has seen since it was reset |
| `Hpf.NeverOverflows` | firmware/openrecall_sensor/main/hpf.c:18-43 | after any int16 stream of any length, on any next sample, the accumulator stays below 2^46 in size and both the Q14 output and the rounding add fit int32 |
| `Hpf.StepBounded` | firmware/openrecall_sensor/main/hpf.c:27-32 | one sample keeps a quadratic form in the last two outputs and inputs under its bound: the invariant behind the range result |
| `Hpf.EnergyRotates` | firmware/openrecall_sensor/main/config.h:120-124 | the feedback part multiplies that quadratic form by exactly a2: the coefficients damp every state |
| `Hpf.RunSplits` | firmware/openrecall_sensor/main/hpf.c:18-43 | cutting a stream into calls changes neither memory nor output |
| `Hpf.DifferenceEquation` | firmware/openrecall_sensor/main/hpf.c:18-43 | on the stream itself: each Q14 value obeys the recurrence of the 180 Hz coefficients to within one unit, over the two inputs and two values before it, and the sample written back is that value over 16384 rounded to the nearest, or the end of int16 it lies beyond |
| `Hpf.OutputRounds` | firmware/openrecall_sensor/main/hpf.c:33-33 | the rounding and saturation of one sample, both ends included |
| `Hpf.FirstOutput` | firmware/openrecall_sensor/main/hpf.c:22-33 | the first sample after a reset comes out at 15585/16384 of its size, rounded |
| `Hpf.ConstantStep` | firmware/openrecall_sensor/main/hpf.c:27-33 | one step of constant input: a bound r on the quadratic form's norm, taken without the input, becomes the bound Shrink(r), which the settling argument iterates |
| `Hpf.ConstantInputIsSilenced` | firmware/openrecall_sensor/test/test_hpf.c:27-64 | after any stream, 508 equal samples bring the output to exactly 0 and keep it there while the input stays |
| `DcBlocker.Blocker.Process` | firmware/openrecall_sensor/main/dc_blocker.c:17-33 | in place, equal to the recurrence over the old samples, with all int32 arithmetic in range |
| `DcBlocker.RunSplits` | firmware/openrecall_sensor/main/dc_blocker.c:17-33 | the frame split does not matter |
| `DcBlocker.DifferenceEquation` | firmware/openrecall_sensor/main/dc_blocker.c:17-33 | on the stream itself: each output is the step of the input plus 32604/32768 of the output before, rounded down, or the end of int16 it lies beyond |
| `DcBlocker.ConstantStep` | firmware/openrecall_sensor/main/dc_blocker.c:24-26 | on constant input the size of the output never grows, saturation never acts, and the output is at rest exactly in [-199, 0] |
| `DcBlocker.ConstantInputSettles` | firmware/openrecall_sensor/main/dc_blocker.c:17-33 | after any stream, 32769 equal samples (32768 steps of constant input) leave the output at rest in [-199, 0], where it stays |
| `DcBlocker.ResidualIsReached` | firmware/openrecall_sensor/main/dc_blocker.c:24-26 | the -199 end is reached by a real input: rounding leaves that residual for ever |
| `Vad.Detector.Process` | firmware/openrecall_sensor/main/vad.c:68-108 | tag and new state are those of the specified step on the frame's mean energy, computed with the widths of the C |
| `Vad.MeasuredEnergy` | firmware/openrecall_sensor/main/vad.c:69-74 | the energy loop computes the truncated mean of squares without overflow |
| `Vad.EnergyIs` | firmware/openrecall_sensor/main/vad.c:69-74 | a frame's energy is the mean of its squares, rounded down, and 0 for no samples |
| `Vad.SumIs` | firmware/openrecall_sensor/main/vad.c:70-73 | the sum of squares, fixed by single samples and concatenation |
| `Vad.LevelIs` | firmware/openrecall_sensor/main/vad.c:69-74 | a frame of one level has the square of that level |
| `Vad.SpeechIff` | firmware/openrecall_sensor/main/config.h:90-93 | on the device a frame is speech exactly when its energy is above 10000 and above three times the floor, which starts at 10000 |
| `Vad.FloorMoves` | firmware/openrecall_sensor/main/vad.c:92-105 | the floor moves on silent frames only: down by 1311/65536 of the way, rounded up; up by 131/65536, rounded down, and only to energies below one and a half times the floor |
| `Vad.TagIsWindowed` | firmware/openrecall_sensor/main/vad.c:76-107 | over a run, a frame is speech exactly when its energy exceeds the threshold, hangover exactly when it is not and one of the previous hangover_frames frames was speech, gap otherwise |
| `Vad.CountdownIsWindow` | firmware/openrecall_sensor/main/vad.c:81-90 | the countdown is at least k exactly when speech lies within the matching window |
| `Vad.MovesBetween` | firmware/openrecall_sensor/main/vad.c:93-105 | the noise floor moves between itself and the frame's energy, so the clamp at zero is dead |
| `Vad.ThresholdNeverWraps` | firmware/openrecall_sensor/main/vad.c:78-79 | with the device's settings the product of floor and multiplier never wraps uint32 |
| `Vad.FloorFallsTo` | firmware/openrecall_sensor/main/vad.c:93-97 | a constant quieter energy is reached exactly within as many gap frames as the difference |
| `Vad.CanRiseIff` | firmware/openrecall_sensor/main/vad.c:98-102 | some energy raises the floor exactly when the floor is above 1003 |
| `Vad.FloorAbsorbed` | firmware/openrecall_sensor/main/vad.c:98-105 | from 1003 down the floor never rises again, over any run |
| `Vad.ThresholdFrozen` | firmware/openrecall_sensor/main/config.h:90-93 | once there, the device's threshold is 10000 for ever |
| `AudioPacket.Encode` | server/src/openrecall_server/ingest/audio_packet.py:65-87 | returns the wire form, or the error the code raises: too many frames first, then the first over-long frame |
| `AudioPacket.Parse` | server/src/openrecall_server/ingest/audio_packet.py:89-135 | the imperative parser equals the recursive specification, errors included |
| `AudioPacket.ParseInvertsEncode` | server/src/openrecall_server/ingest/audio_packet.py:65-135 | parsing an encoded in-range packet, with anything after it, gives the packet back |
| `AudioPacket.EncodeInvertsParse` | server/src/openrecall_server/ingest/audio_packet.py:89-135 | every accepted buffer is the encoding of what was parsed followed by ignored bytes |
| `AudioPacket.AcceptsIff` | server/src/openrecall_server/ingest/audio_packet.py:89-135 | a buffer is accepted exactly when it starts with the encoding of some in-range packet |
| `AudioPacket.PrefixRejected` | server/src/openrecall_server/ingest/audio_packet.py:91-123 | every strict prefix of an encoded packet is rejected |
| `AudioPacket.WireIs` | server/src/openrecall_server/ingest/audio_packet.py:65-87 | every header byte: version and type code, both numbers least byte first, the tag's code 0 to 3, count, flags |
| `AudioPacket.BodyIs` | server/src/openrecall_server/ingest/audio_packet.py:76-87 | the frames lie end to end, each behind its length |
| `AudioPacket.WireLooks` | server/src/openrecall_server/ingest/audio_packet.py:65-87 | one packet, all bytes |
| `AudioPacket.ErrorsAre` | server/src/openrecall_server/ingest/audio_packet.py:91-112 | which error a refused buffer gets: short header, unknown type, unknown tag, in that order, else the frames' own |
| `AudioPacket.FrameErrors` | server/src/openrecall_server/ingest/audio_packet.py:112-123 | a body that ends after i whole frames, or inside frame i, is refused with just that i |
| `C6Packet.WritePacket` | firmware/openrecall_sensor/main/c6_packet.c:7-38 | returns 0 exactly when there are more than 255 frames or the packet exceeds cap, and then writes nothing; otherwise fills exactly that many bytes with the specified layout and touches no other byte |
| `C6Packet.WriteFrames` | firmware/openrecall_sensor/main/c6_packet.c:32-36 | the body loop lays the length-prefixed frames end to end |
| `C6Packet.MirrorsEncode` | firmware/openrecall_sensor/main/c6_packet.c:24-37 | with version 1 the C layout is the server's encoding of the same packet, byte for byte |
| `RingBuffer.Ring.Push` | firmware/openrecall_sensor/main/ring_buffer.c:34-47 | appends to the history of all frames ever pushed |
| `RingBuffer.Ring.Get` | firmware/openrecall_sensor/main/ring_buffer.c:53-69 | succeeds exactly when the index is below the write index by at most 3000, and then describes and points to that history entry |
| `RingBuffer.Ring.GetCopy` | firmware/openrecall_sensor/main/ring_buffer.c:71-89 | same, with the bytes copied out; the rest of the caller's buffer is untouched |
| `RingBuffer.Ring.PointerLasts` | firmware/openrecall_sensor/main/ring_buffer.c:60-64 | a pointer handed out by get still reads the frame as long as its index is in the window |
| `AudioTask.PushFrame` | firmware/openrecall_sensor/main/openrecall_sensor.c:117-164 | one capture appends exactly: its speech, a gap marker when paused or silent, nothing when the encoder fails |
| `AudioTask.OneFramePerCaptureIff` | firmware/openrecall_sensor/main/openrecall_sensor.c:146-164 | over any captures the ring holds one frame for each, at its index, exactly when the encoder never failed |
| `AudioTask.RecordedIs` | firmware/openrecall_sensor/main/openrecall_sensor.c:112-164 | over any captures, frame by frame: unpaused captures tagged speech or hangover are recorded with their own time, tag and encoding, all others as empty gap markers of their time, in order; missing are exactly the unpaused speech captures whose encoding is empty or over 255 bytes |
| `AudioTask.Preempt` | firmware/openrecall_sensor/main/openrecall_sensor.c:117-164 | any number of captures between two reads extends the history by what they record and keeps it clean |
| `DrainSpec.DrainsIff` | firmware/openrecall_sensor/main/ble_drain.c:186-263 | despite rewinds the cursor reaches the last chunk within one turn per frame exactly when speech does not start at frame 10 after ten silent frames; in that case it stays at 10 for ever |
| `DrainSpec.StepInvariant` | firmware/openrecall_sensor/main/ble_drain.c:193-224 | what each turn keeps: a batch that rewound is not followed by another rewind outside the stuck case |
| `DrainSpec.DeliveredOnceThenPreroll` | firmware/openrecall_sensor/main/ble_drain.c:241-263 | for any number of turns, entries under their own tag are the audible frames before the cursor, once and in order; a frame is repeated as preroll at most once and only after that |
| `DrainSpec.TurnIs` | firmware/openrecall_sensor/main/ble_drain.c:186-263 | one turn from the frames alone: speech that starts out of silence behind frame 0 sends the drainer back fifteen frames, or to the start, and the ten frames from there go out as preroll; else the next ten go out under their own tags; in both cases exactly those with data, in order, with the cursor behind them |
| `DrainSpec.OwnIs` | firmware/openrecall_sensor/main/ble_drain.c:241-263 | the frames sent under their own tags, from the frames alone: those before the cursor that have data, in order |
| `DrainSpec.BatchPrefix` | firmware/openrecall_sensor/main/ble_drain.c:186-263 | a batch depends only on frames written when it became ready, so the producer may run on meanwhile |
| `Packing.GroupsPartition` | firmware/openrecall_sensor/main/ble_drain.c:287-307 | packing loses and reorders nothing: the groups joined are the items that fit a packet |
| `Packing.GroupsGreedy` | firmware/openrecall_sensor/main/ble_drain.c:292-296 | each group is non-empty, within budget, and ends the batch or could not have taken the item that follows it there |
| `Packing.LiveMatches` | firmware/openrecall_sensor/main/ble_drain.c:273-311 | each packet is one group, with its first frame's time and tag and consecutive sequence numbers; nothing to send is one empty gap packet |
| `Packing.LiveOnTheWire` | firmware/openrecall_sensor/main/ble_drain.c:265-321 | every packet's bytes are within the MTU's payload, the server parses each back, and the frames carried are the fitting ones in order |
| `Packing.FitsInBytes` | firmware/openrecall_sensor/main/ble_drain.c:265-271 | a frame fits exactly when the 12 header bytes, its length byte and its data are at most the MTU less 3, or 244 below an MTU of 23 |
| `Packing.FittingAre` | firmware/openrecall_sensor/main/ble_drain.c:289-307 | the frames that packing keeps are those, in order |
| `LiveDrain.PacketInBytes` | firmware/openrecall_sensor/main/ble_drain.c:265-321 | each packet of a turn, in bytes: a piece of the batch under its first frame's time and tag, flags 0, within the notification; and the batch's next frame, if any, would not have fitted it |
| `LiveDrain.SilentPacket` | firmware/openrecall_sensor/main/ble_drain.c:273-283 | a turn without audible frames is one empty gap packet of its first frame's time |
| `Link.Link.Notify` | firmware/openrecall_sensor/main/ble_link.c:294-315 | the answer is delivered, no buffer, or no subscriber, and what was received grows accordingly |
| `Link.Link.Send` | firmware/openrecall_sensor/main/ble_drain.c:328-369 | another try follows only an exhausted buffer pool, and after the third retry none does; the peer receives the packet once if the last answer says so, else not at all |
| `Link.SubsequenceIs` | firmware/openrecall_sensor/main/ble_link.c:294-315 | a selection, as the link makes it, is entries at rising places |
| `LiveDrain.Drainer.Turn` | firmware/openrecall_sensor/main/ble_drain.c:177-381 | the loop body over the real ring with the producer preempting at every read: if the batch's first frame survives the turn, cursor, speech flag, chunk_seq and the packets offered are exactly those specified over the history; if only the preroll is lost, those of a drainer that does not rewind; if the cursor itself was overtaken, one empty packet and ten frames skipped; and always sequence numbers without a gap |
| `LiveDrain.Drainer.SkippedIs` | firmware/openrecall_sensor/main/ble_drain.c:228-283 | overtaken by the producer: one empty gap packet of time 0, the next number, ten frames on, not in speech |
| `LiveDrain.NumberedJoins` | firmware/openrecall_sensor/main/ble_drain.c:177-184 | turns and replays in any sequence number what they offer in one unbroken count |
| `Replay.ReplayNumbered` | firmware/openrecall_sensor/main/ble_drain.c:110-154 | a replay continues the drainer's count without a gap |
| `LiveDrain.Drainer.CollectBatch` | firmware/openrecall_sensor/main/ble_drain.c:234-263 | the three parallel arrays hold the batch's audible frames with their preroll tags |
| `LiveDrain.Drainer.Rewind` | firmware/openrecall_sensor/main/ble_drain.c:196-224 | the cursor goes back exactly when specified |
| `LiveDrain.Drainer.SendFrames` | firmware/openrecall_sensor/main/ble_drain.c:284-371 | the packing loop sends exactly the specified packets and leaves chunk_seq after them |
| `LiveDrain.TurnOnTheWire` | firmware/openrecall_sensor/main/ble_drain.c:241-372 | for every MTU from 23 a turn's packets arrive whole, carrying the batch's fitting frames, and a silent batch is one packet without frames |
| `Stream.ServerHears` | firmware/openrecall_sensor/main/ble_drain.c:177-372 | the specified run, over any number of turns and any MTUs: sequence numbers run from 0 without a gap and the packets parse to the fitting frames in order |
| `Stream.EndToEnd` | firmware/openrecall_sensor/main/ble_drain.c:159-381 | the specified run over a finished history: outside the stuck case less than one chunk stays unread, and if every recorded frame is small enough for every MTU in use, the packets carry every audible frame before the cursor once and in order, plus preroll repeats |
| `DrainTask.RunLive` | firmware/openrecall_sensor/main/ble_drain.c:177-381 | the live loop over the real ring, pass after pass with the producer preempting: unless some batch was overrun, cursor, speech flag, chunk_seq and everything offered are those of the specified run over what was recorded, and a turn ran in every pass that began with a chunk recorded and in none that ended without one |
| `DrainTask.DeliveredReads` | firmware/openrecall_sensor/main/ble_link.c:294-315 | from any selection of a run's notifications the server parses every one, to the same selection of the packets |
| `DrainTask.RunAndHear` | firmware/openrecall_sensor/main/ble_drain.c:159-381 | from ring to parser: for a run without overrun and any loss on the link, what is delivered parses to a selection, in order, of the run's packets, and to all of them if nothing is lost; these carry the frames that fit, and when speech does not start at frame 10 after ten silent frames and every frame is small enough for every MTU in use, that is every audible frame before the cursor once plus preroll repeats |
| `DrainLoop.RunTask` | firmware/openrecall_sensor/main/ble_drain.c:159-392 | the whole drain loop: any number of replay requests before each live turn, the producer running at every read; every request is answered, in order and between the end of the turn before it and the beginning of the next, and everything offered is numbered from 0 without a gap; unless some live batch was overrun, no turn is left out, the live packets are those of the run without requests but for their numbers, and the others are the answers in order |
| `DrainLoop.Serve` | firmware/openrecall_sensor/main/ble_drain.c:39-157 | one request, validated and within the buffers, over the window of the frames recorded when it is taken up: what the link was offered meanwhile is memory packets with the window's audible, fitting frames that were still there when read, each read before the request was done; at most ten to a packet, within the budget, under the first one's time and tag, the flag on the last packet alone, and filled greedily if nothing was lost |
| `DrainLoop.AnswerHeard` | firmware/openrecall_sensor/main/ble_drain.c:110-157 | the server reads each packet of an answer back, each fits one notification of the MTU, and together they carry the kept frames, which are all audible fitting ones of the window if its first frame outlasted the answer |
| `DrainLoop.LiveAmongReplays` | firmware/openrecall_sensor/main/ble_drain.c:159-392 | serving replays takes nothing from the live stream: its packets carry what they do in a run without them, under the conditions of RunAndHear every audible frame before the cursor |
| `DrainLoop.RunTaskAndHear` | firmware/openrecall_sensor/main/ble_drain.c:159-392 | the whole drain loop to the server: for a run without overrun and any loss on the link, what is delivered parses to a selection, in order, of all packets offered, hence of the live ones, which carry what RunAndHear says, and of the answers, and to all of them if nothing is lost |
| `DrainLoop.SelectsByType` | firmware/openrecall_sensor/main/ble_link.c:294-315 | a selection of a mixed stream is a selection of each kind of packet in it |
| `Replay.WindowLength` | firmware/openrecall_sensor/main/executor_core.c:108-115 | the window is the least of 50*seconds, 3000 and the frames written: below all three and equal to one |
| `Replay.DrainReplay` | firmware/openrecall_sensor/main/ble_drain.c:39-157 | terminates; the packets sent are the kept frames of the window, grouped within budget, with consecutive sequence numbers, at least one packet, the flag on the last and no other; if nothing was overwritten, the non-empty groups are the greedy ones of the window; no scratch byte or frame slot is overrun |
| `Replay.ReplayHeard` | firmware/openrecall_sensor/main/ble_drain.c:110-154 | the replay as the server decodes it |
| `Replay.NothingOverwritten` | firmware/openrecall_sensor/main/ble_drain.c:79-91 | if the window's first frame is still in the ring at the end, nothing was lost and the kept frames are all audible fitting ones |
| `Replay.KeptAre` | firmware/openrecall_sensor/main/ble_drain.c:79-108 | the frames a replay keeps, one by one: those of the window that were at most 3000 behind when read, are no gap markers, have data and fit a notification, with their own times and tags |
| `Replay.ReplayPacket` | firmware/openrecall_sensor/main/ble_drain.c:110-154 | each packet of a replay, in bytes: a piece of the kept frames of at most ten, under its first frame's time and tag, numbered, flag 2 on the last alone, within the notification |
| `ReplaySlots.SlotsSafeIff` | firmware/openrecall_sensor/main/ble_drain.c:69-108 | the test the inner loop does not make: whatever the producer overwrites meanwhile, every stretch of the window whose surviving audible frames fit one packet has at most ten of them, exactly when any eleven audible frames of the window together exceed the budget, which is what DrainReplay requires |
| `Replay.ScratchHoldsIff` | firmware/openrecall_sensor/main/ble_drain.c:40-71 | the scratch buffer holds a whole budget exactly up to an MTU of 2585, and a budget plus the one frame copied before its size is checked exactly up to 2330 |
| `ReplaySlots.TenPerPacketIff` | firmware/openrecall_sensor/main/ble_drain.c:79-108 | for one window, nothing overwritten: no packet takes more than ten frames exactly when no eleven in a row fit from where a packet begins |
| `ReplaySlots.StopsAtGroup` | firmware/openrecall_sensor/main/ble_drain.c:68-110 | each pass of the outer loop takes the next greedy group of the window |
| `ReplaySlots.SlotsSufficeIff` | firmware/openrecall_sensor/main/ble_drain.c:69-108 | for frames of at least a given length, ten slots always suffice exactly when eleven of the smallest exceed the budget |
| `ReplaySlots.BigFramesExceed` | firmware/openrecall_sensor/main/ble_drain.c:69-108 | frames of such a length meet what DrainReplay requires |
| `ReplaySlots.SlotsAtUsualMtu` | firmware/openrecall_sensor/main/ble_drain.c:62-71 | at the MTU of 247 the firmware prefers, that length is 21 bytes |
| `Replay.PackAgain` | firmware/openrecall_sensor/main/ble_drain.c:122-130 | the second packing loop always takes the whole of what the first one collected |
| `CommandStatus.MovesForward` | server/src/openrecall_server/commands/status.py:68-93 | every allowed move raises the rank, so no lifecycle cycles |
| `CommandStatus.TerminalIff` | server/src/openrecall_server/commands/status.py:58-80 | the four terminal states are exactly those with no way out |
| `CommandStatus.ChainShort` | server/src/openrecall_server/commands/status.py:41-93 | no lifecycle has more than six entries |
| `CommandStatus.MovesAre` | server/src/openrecall_server/commands/status.py:68-93 | the allowed moves, one by one |
| `CommandStatus.LongestChain` | server/src/openrecall_server/commands/status.py:41-93 | a lifecycle of six entries exists |
| `Dispatcher.CommandDispatcher.Issue` | server/src/openrecall_server/commands/dispatcher.py:60-99 | new tables and returned command of the specified step, including both ways of absorbing a repeat |
| `Dispatcher.CommandDispatcher.FindByIdempotencyKey` | server/src/openrecall_server/commands/dispatcher.py:101-116 | answers the specified lookup |
| `Dispatcher.CommandDispatcher.Transition` | server/src/openrecall_server/commands/dispatcher.py:131-165 | moved, unknown or invalid, with status and history together or not at all |
| `Dispatcher.CommandDispatcher.PendingCommands` | server/src/openrecall_server/commands/dispatcher.py:186-193 | the unacked, unexpired commands in issue order |
| `Dispatcher.AlwaysInvariant` | server/src/openrecall_server/commands/dispatcher.py:60-165 | the tables agree in every run of issue, ack and transition |
| `Dispatcher.OneUnackedPerKey` | server/src/openrecall_server/commands/dispatcher.py:70-84 | at most one unacked command holds an idempotency key |
| `Dispatcher.HistoriesSound` | server/src/openrecall_server/commands/dispatcher.py:83-96 | every history starts at PENDING, moves only as allowed, ends at the current status and has at most six entries |
| `Dispatcher.FindPredictsIssue` | server/src/openrecall_server/commands/dispatcher.py:101-116 | a key is found exactly when issuing it now returns that command and creates nothing, but for a command whose own id is already taken |
| `Dispatcher.FindIs` | server/src/openrecall_server/commands/dispatcher.py:101-116 | in every run, a key is found exactly when an unacked command holds it, and that one is answered |
| `Dispatcher.IssueIs` | server/src/openrecall_server/commands/dispatcher.py:60-99 | in every run: what issue returns is the table's entry; a key held by an unacked command or an id taken changes nothing, otherwise the new command is there with its own signature, last in the order, pending, with a history of one entry |
| `Dispatcher.CommandRuns` | server/src/openrecall_server/commands/dispatcher.py:118-165 | over any run: an issued command keeps its entry and its place; its status is where the moves allowed one after another leave it, and its history is those moves, appended with their times |
| `Dispatcher.OutcomeIs` | server/src/openrecall_server/commands/dispatcher.py:131-158 | in every run a transition is unknown exactly for a command never issued, made exactly when allowed, and otherwise changes nothing |
| `Dispatcher.PendingIs` | server/src/openrecall_server/commands/dispatcher.py:186-193 | what is pending is what is owed |
| `Dispatcher.PendingInOrder` | server/src/openrecall_server/commands/dispatcher.py:186-193 | the commands on offer are those neither acked nor expired, in the order of issue |
| `Dispatcher.PendingLaw` | server/src/openrecall_server/commands/dispatcher.py:127-129 | an acked command never comes back, whatever follows; an unacked unexpired one is always offered |
| `Commands.Receiver.AlreadySeen` | firmware/openrecall_sensor/main/commands.c:38-45 | true exactly when the id is among the last sixteen stored, unfilled slots counting as empty strings |
| `Commands.Receiver.Remember` | firmware/openrecall_sensor/main/commands.c:47-50 | the ring of slots becomes the recent end of the longer log |
| `Commands.Receiver.Handle` | firmware/openrecall_sensor/main/commands.c:67-105 | verify, dedupe, remember, execute, ack: the specified step |
| `Commands.DeliveryIs` | firmware/openrecall_sensor/main/commands.c:67-105 | per delivery: rejected leaves no trace; verified is acked exactly when recognised or the queue has room, runs exactly when new and the queue has room, and is remembered exactly when new |
| `Commands.AcksAre` | firmware/openrecall_sensor/main/commands.c:94-103 | in every run a command that ran is acked, and the acks are those of the deliveries recognised or accepted, in order |
| `Commands.ExecutionsAreSpaced` | firmware/openrecall_sensor/main/commands.c:94-103 | for ids of 1 to 63 characters: acked ids were remembered, executions are a selection of the remembered ids in order, and two executions of one id lie more than sixteen remembered ids apart, the ids between all different |
| `Commands.AtMostOnceIff` | firmware/openrecall_sensor/main/commands.c:94-103 | whatever the executor queue refuses, each id is executed at most once exactly when no delivery that finds room repeats an id that has run and after which sixteen others were remembered |
| `Commands.OnceWithRoomIff` | firmware/openrecall_sensor/main/commands.c:94-103 | while the queue has room: each id is executed at most once, in order of first delivery, exactly when every repeat comes before sixteen other ids have been delivered for the first time since |
| `Commands.SeenIff` | firmware/openrecall_sensor/main/commands.c:38-50 | an id of 1 to 63 characters is recognised exactly while fewer than sixteen others were remembered after it |
| `Commands.ExecutedTwice` | firmware/openrecall_sensor/main/commands.c:94-99 | a run that executes one command twice |
| `Commands.RedeliveryRecognisedIff` | firmware/openrecall_sensor/main/commands.c:38-50 | an immediate repeat is recognised exactly for ids below 64 characters |
| `Commands.EmptyIdAckedIff` | firmware/openrecall_sensor/main/commands.c:38-45 | the empty id is acked without execution exactly while a slot is unfilled or fewer than sixteen others were remembered since it was |
| `Commands.AckedWasEnqueued` | firmware/openrecall_sensor/main/commands.c:97-102 | if the queue had room at every first delivery, every acked id was enqueued |
| `Commands.FirstDeliveryDecides` | firmware/openrecall_sensor/main/commands.c:94-102 | remembered before executed: until sixteen other ids are remembered, a second delivery only acks, and the command has run exactly if the queue had room at the first |
| `CommandPlane.CommandsAreSafe` | server/src/openrecall_server/gateway/core.py:418-475 | every run of server, lossy duplicating reordering relay and device: only issued commands run, repeats are spaced, acked commands were remembered and, given room, enqueued, and what the device has not acked stays on offer until it expires |
| `CommandPlane.AlwaysInvariant` | firmware/openrecall_sensor/main/commands.c:67-105 | what each step keeps: messages under way to the device were issued, acks under way were sent by it |
| `CommandPlane.RelayMay` | firmware/openrecall_sensor/main/commands.c:67-93 | what fails verification leaves the device as it was; any message under way may be lost or sent twice |
| `CommandPlane.HelloOffers` | server/src/openrecall_server/gateway/core.py:456-475 | a hello offers every command owed to its session or to any session |
| `CommandPlane.OffersExactly` | server/src/openrecall_server/gateway/core.py:456-475 | in every run an offer sends each command owed to the open session or to any once, and nothing else |
| `CommandPlane.DeliveryAnswers` | firmware/openrecall_sensor/main/commands.c:94-103 | a delivery puts an ack in flight exactly when the id is recognised or the queue has room |
| `CommandPlane.AckSettles` | server/src/openrecall_server/gateway/core.py:418-425 | an ack that arrives acks that command at the server and no other |
| `CommandPlane.AckOffersRest` | server/src/openrecall_server/gateway/core.py:418-475 | an ack that arrives while a session is open pulls the remainder |
| `CommandPlane.OneRoundIsEnough` | server/src/openrecall_server/gateway/core.py:418-475 | from any run, if nothing is lost: hello, delivery and ack run an owed command that is new to the device, and it is never offered again |
| `EventStore.InMemoryEventStore.Append` | server/src/openrecall_server/events/store.py:111-116 | stored exactly when the id is new, and then at the end of its session |
| `EventStore.InMemoryEventStore.LastEvent` | server/src/openrecall_server/events/store.py:121-126 | the first event of highest number, or none |
| `EventStore.InMemoryEventStore.DeleteRange` | server/src/openrecall_server/events/store.py:155-168 | removes the range and frees its ids; the count returned is the difference in rows |
| `EventStore.EventIdInjective` | server/src/openrecall_server/gateway/core.py:632-635 | an id names one session and one number, even when session names contain colons |
| `EventStore.AppendSucceeds` | server/src/openrecall_server/events/store.py:111-116 | an event numbered past its session's rows is always stored and keeps the store sound |
| `EventStore.DeleteKeeps` | server/src/openrecall_server/events/store.py:155-168 | deleting keeps every session ordered and disjoint and the seen ids those of the survivors |
| `EventStore.LatestIsLast` | server/src/openrecall_server/events/store.py:121-126 | on a sound session the newest event is the last row |
| `EventStore.LatestIs` | server/src/openrecall_server/events/store.py:121-126 | on any rows the newest event is the first of those with the highest number |
| `EventStore.EventIdLooks` | server/src/openrecall_server/gateway/core.py:632-635 | an id is the session, a colon and the number in decimal |
| `Gateway.GatewayCore.OnHello` | server/src/openrecall_server/gateway/core.py:369-413 | binds the session and resumes number and time after its newest event |
| `Gateway.GatewayCore.Emit` | server/src/openrecall_server/gateway/core.py:616-693 | each transcript becomes the next event, is indexed and passed to extraction only if stored, and yields one message |
| `Gateway.GatewayCore.EmitMoment` | server/src/openrecall_server/gateway/core.py:579-614 | a moment takes a number but no time, and is not passed to extraction |
| `Gateway.EmittedIs` | server/src/openrecall_server/gateway/core.py:616-675 | per utterance: an event with the next number at the time so far; a duplicate id is neither stored, indexed nor passed on, but counted; only a stored transcript goes to extraction |
| `Gateway.BuiltIs` | server/src/openrecall_server/gateway/core.py:616-675 | the events a connection builds are its utterances laid end to end from where it stood |
| `Gateway.GatewayCore.OnAudio` | server/src/openrecall_server/gateway/core.py:279-331 | nothing before hello; otherwise the transcripts, then the moment on the last packet of a replay |
| `Gateway.GatewayCore.OnBye` | server/src/openrecall_server/gateway/core.py:477-495 | an error before hello, otherwise flushes and unbinds |
| `Gateway.GatewayCore.OnDisconnect` | server/src/openrecall_server/gateway/core.py:516-552 | flushes if a session is bound |
| `Reconnects.ReconnectsInvisible` | server/src/openrecall_server/gateway/core.py:369-413 | any history without deletions from the session: its rows are what one unbroken connection would have written, numbered 0, 1, 2, ..., each starting where the one before ended |
| `Reconnects.NothingIsLostToDuplicates` | server/src/openrecall_server/gateway/core.py:616-675 | any history with one live connection per session, deletions included: every event built was stored, indexed and passed on; ids are unique; survivors are ordered and disjoint |
| `Reconnects.NumberingGoesBackIff` | server/src/openrecall_server/events/store.py:155-168 | a deletion makes the next hello reuse numbers exactly when it took the session's newest event |
| `Reconnects.LaidChains` | server/src/openrecall_server/gateway/core.py:674-675 | events laid end to end chain in number and time |
| `Reconnects.SaidIs` | server/src/openrecall_server/gateway/core.py:279-331 | a session says what its live connection hears on each packet, with the moment behind it when the packet ends a replay, and what it flushes when closing |
| `Reconnects.SpeaksFor` | server/src/openrecall_server/gateway/core.py:369-413 | a connection speaks for the session of its last hello, for none before it or after a bye, and not at all once dropped |
| `Reconnects.ExtractedIs` | server/src/openrecall_server/gateway/core.py:579-675 | transcripts are passed on to extraction, moments are not |
| `MediaIndex.ParseUndoesPrint` | firmware/openrecall_sensor/main/media_index.c:14-32 | parsing a printed line, whatever follows it, gives path, time, boot and kind back, for every path of 1 to 79 characters without a bar and every uint32 pair |
| `MediaIndex.ParsedPath` | firmware/openrecall_sensor/main/media_index.c:17-32 | an accepted line's path is the text before its first bar |
| `MediaIndex.ScanAllows` | firmware/openrecall_sensor/main/media_index.c:22-32 | the leniency of scanf in the number fields: white space and one sign before the digits, a minus read modulo 2^32 |
| `MediaIndex.LineFits` | firmware/openrecall_sensor/main/media_index.c:14-16 | the capture tasks' buffer never clips a line |
| `MediaIndex.PathsAreGood` | firmware/openrecall_sensor/main/media_index.c:6-13 | generated paths fit 80 bytes and can stand in a manifest line |
| `MediaIndex.PathInjective` | firmware/openrecall_sensor/main/media_index.c:6-13 | a path names one boot, time and sequence number |
| `MediaIndex.KindsDiffer` | firmware/openrecall_sensor/main/media_index.c:6-13 | no snapshot path is a video path |
| `MediaIndex.PathsSortByTime` | firmware/openrecall_sensor/main/media_index.c:6-13 | within a boot, paths with different times sort as strings in order of time |
| `MediaIndex.PathsLook` | firmware/openrecall_sensor/main/media_index.c:6-16 | two paths and a manifest line, in full |
| `MediaIndex.ConsumedParse` | firmware/openrecall_sensor/main/media_index.c:33-50 | the non-empty lines, or an error exactly when one is 80 characters or more or there are too many |
| `MediaIndex.ConsumedRoundTrip` | firmware/openrecall_sensor/main/media_index.c:33-50 | a list of short names, one to a line, is read back as it is |
| `MediaIndex.BlankLinesSkipped` | firmware/openrecall_sensor/main/media_index.c:33-50 | blank lines are passed over |
| `TextLines.LinesOfJoined` | firmware/openrecall_sensor/main/transfer.c:227-269 | splitting undoes joining |
| `TextLines.JoinedOfLines` | firmware/openrecall_sensor/main/transfer.c:227-269 | joining undoes splitting, but for a newline added to a last line without one |
| `Transfer.Trim` | firmware/openrecall_sensor/main/transfer.c:217-273 | never writes past 8192 bytes; a manifest cut short is left alone, otherwise the buffer holds exactly the trimmed manifest |
| `Transfer.TrimmedLines` | firmware/openrecall_sensor/main/transfer.c:227-269 | the rewritten manifest is the non-empty lines whose parsed path was not consumed, and the unparseable and over-long ones, in order, each with its newline |
| `Transfer.TrimComposes` | firmware/openrecall_sensor/main/transfer.c:227-269 | trimming twice is trimming once with both lists |
| `Transfer.ManifestTrims` | firmware/openrecall_sensor/main/transfer.c:227-269 | on printed entries exactly the named entries go |
| `Transfer.TailLostIff` | firmware/openrecall_sensor/main/transfer.c:217-223 | for every file: a line that should stay is lost exactly when the file is larger than the buffer, breaks there just after a newline, and has a line to keep in the rest |
| `Transfer.Card.Consume` | firmware/openrecall_sensor/main/transfer.c:170-291 | the handler on the card: bad request, or files and lines removed and the teardown signal |
| `Transfer.RequestIs` | firmware/openrecall_sensor/main/transfer.c:170-198 | a request of names, one to a line, within 4095 bytes is understood exactly when there are at most 32 and none is over 79 characters, whatever follows a NUL |
| `Transfer.ConsumedIs` | firmware/openrecall_sensor/main/transfer.c:187-291 | whatever is on the card: an understood request deletes exactly the files it names, one that is not changes nothing; a manifest cut short is left alone without a teardown, otherwise teardown is signalled exactly when it becomes empty |
| `Transfer.StaysIs` | firmware/openrecall_sensor/main/transfer.c:227-262 | a line stays unless it is blank, or shorter than 128 characters, parseable and names a consumed path |
| `Transfer.PostHolds` | firmware/openrecall_sensor/main/transfer.c:189-287 | teardown is signalled exactly when no entry is left |
| `Transfer.CardHolds` | firmware/openrecall_sensor/main/transfer.c:170-291 | over any life of the card with a manifest that fits, it lists exactly what was captured and not consumed since, and every listed file is on the card |
| `InferenceWorker.EveryInterleaving` | server/src/openrecall_server/gateway/inference_worker.py:151-193 | however producer and consumer interleave: the second put is never refused; taken, then queued, is a selection in order of what was put, the rest was dropped in order, nothing else; the newest message is never dropped |
| `InferenceWorker.DropsOnlyWhenFull` | server/src/openrecall_server/gateway/inference_worker.py:172-183 | left alone, an enqueue stores its message and drops one exactly when the queue is full |
| `InferenceWorker.EnqueueIs` | server/src/openrecall_server/gateway/inference_worker.py:172-183 | and the whole queue then: full, it gives up its oldest message, and the new one is last |
| `InferenceWorker.Worker.Enqueue` | server/src/openrecall_server/gateway/inference_worker.py:151-183 | the whole enqueue, with any number of gets in both gaps: its operations extend the worker's interleaving, the message is stored, and the second put is never refused |
| `InferenceWorker.Worker.Accounted` | server/src/openrecall_server/gateway/inference_worker.py:151-193 | so at any moment a worker's messages are accounted for as every interleaving's are |
| `InferenceWorker.Worker.LogFailure` | server/src/openrecall_server/gateway/inference_worker.py:207-245 | the specified failure step |
| `InferenceWorker.Worker.NoteSuccess` | server/src/openrecall_server/gateway/inference_worker.py:247-270 | the specified success step |
| `InferenceWorker.TracebackIff` | server/src/openrecall_server/gateway/inference_worker.py:226-236 | a failure prints a traceback exactly when none was printed in the 300 seconds before it |
| `InferenceWorker.SummaryIff` | server/src/openrecall_server/gateway/inference_worker.py:207-245 | a failure without a traceback prints a summary at every hundredth failure counted, with that count, and else nothing |
| `InferenceWorker.RecoveredIff` | server/src/openrecall_server/gateway/inference_worker.py:247-270 | a frame that works prints a recovery exactly when it is the fiftieth in a row behind a failure, with the failures counted, and else nothing |
| `InferenceWorker.SummaryCountIff` | server/src/openrecall_server/gateway/inference_worker.py:232-245 | a summary counts the failures since the traceback above it exactly when no fifty frames in a row worked in between, and fewer otherwise |
| `InferenceWorker.SummaryUndercounts` | server/src/openrecall_server/gateway/inference_worker.py:232-270 | one failure, fifty working frames and a hundred failures within the second: the summary says 100 where 101 have failed |
| `Button.Classifier.Event` | firmware/openrecall_sensor/main/button.c:15-86 | the specified step, elapsed time in uint32 |
| `Button.GesturesAreReal` | firmware/openrecall_sensor/main/button.c:15-86 | over every trace with a clock that does not go back, each gesture is borne out by taps or holds meeting its definition |
| `Button.EvidenceIsDisjoint` | firmware/openrecall_sensor/main/button.c:15-86 | what bears out a gesture begins after the tick that returned any earlier one; the one exception is a press after the gap, which both ends a short press and begins its own |
| `Button.PressDecides` | firmware/openrecall_sensor/main/button.c:28-60 | a press is reported long exactly when it ends after 1000 to 5999 ms and very long exactly when it reaches 6000 ms |
| `Button.TapResolves` | firmware/openrecall_sensor/main/button.c:47-83 | a first tap becomes double with a second tap within 400 ms, and short at the first tick past the gap |
| `Button.ClockMayWrap` | firmware/openrecall_sensor/main/button.c:15-27 | a trace yields the same gestures at any other reading of the uint32 clock, across its wrap-around too |
| `Button.VeryLongThenShort` | firmware/openrecall_sensor/main/button.c:28-36 | one physical press that yields two gestures |
| `Button.HoldsAreWholeIff` | firmware/openrecall_sensor/main/button.c:28-36 | every hold the classifier times begins with the button going down exactly when every press is let go by the tick after the first at which it has lasted 6000 ms |
| `Button.GesturesAreWholeIff` | firmware/openrecall_sensor/main/button.c:15-86 | every gesture rests on whole presses exactly when, of any press held past that tick, the rest makes no gesture by itself: not held a second more, nor let go earlier and followed by a pause over 400 ms or a second tap |

## Left out

- Signature checks, JSON decoding, pydantic and base64: a delivery is either rejected or carries a verified id; a signer's output is a parameter.
- Task scheduling, stacks, logging, WiFi, camera and SD drivers: a notify answers anything it may, a queue send has room or not, writes to the card succeed.
- The relay in `CommandPlane` loses, duplicates and reorders messages and may send the device anything that fails verification; it does not forge acks.
- Opus, transcription and the ingest pipeline: what they return is any list of frames or transcripts. Durations are natural numbers; a packet the server cannot parse, or a pipeline that raises, ends the call before anything is emitted and is not modelled.
- SQLite stores, HTTP routes, the session, segment and liveness indexes beyond what is passed to them, and the request for missing chunks.
- Wrap-around of uint32 frame indices and of the frames' millisecond times: runs are shorter than 2^32. `chunk_seq` does wrap, and so may the button's clock (`Button.ClockMayWrap`).
- The server's reassembler and its gap timeouts.
- `relabel_speaker` and `search` of the event store; speaker fields of events.
- `mic_dsp.c`, the dual-channel and non-adaptive detectors, provisioning, and the executor beyond the replay window: outside the properties proved.
- Button debouncing, and the worker's stop, which may discard one message already taken.
- LiveDrain.Drainer.CollectBatch: the three local arrays of ten entries are one bounded sequence, so their layout is not modelled.
- LiveDrain.Drainer.Turn: when the producer overwrites the batch's first frame during the turn itself, it says only where the cursor and the sequence numbers go, since the C code then reads mixed data.
- DrainTask.RunLive: of a run with an overrun it says nothing beyond each turn's contract.
- DrainLoop.RunTask: of a run with an overrun it says that every request is answered in its place and that all is numbered, but nothing of the live packets beyond each turn's contract. Its requests have a duration the executor validated (1 to 60 seconds) and otherwise meet what Replay.DrainReplay requires, stated through the encoder's shortest frame.
- Replay.DrainReplay: requires that any eleven audible frames of the window exceed the budget and that a notification's budget leaves room for one frame in the scratch buffer, because the C code writes out of bounds otherwise. The source's comment that the budget never exceeds the scratch buffer is right for the MTU of 247 the firmware prefers (`firmware/openrecall_sensor/sdkconfig.defaults:59`); `Replay.ScratchHoldsIff` gives the exact bounds. Where packets without frames fall among the others, and their time, is not stated.
- MediaIndex.ManifestParse: a number too wide for uint32 is read as the widest, which the C standard leaves undefined; no property depends on it.
- Transfer.Card.Consume: the request body arrives whole, allocation succeeds, and a failed rewrite, which would leave an empty manifest, is not modelled.
- InferenceWorker.Worker.LogFailure: the clock is real-valued and does not go back.

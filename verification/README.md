# Remote bridge: a model and its proofs

The bridge connects a Bluetooth LE remote to a USB host. Its firmware multiplexes control
messages, key states and encoded voice into numbered frames; a host SDK reads them. This
project models the stateful engines of firmware and SDK in Dafny and proves what they keep over
whole runs. `dafny verify dfyconfig.toml` checks all of it.

| component | files | main results |
|---|---|---|
| frames and receiver | `Bytes`, `Crc32c`, `Cobs`, `Frame`, `Receiver` | aliasing COBS decoder, streaming encoder, delivery of a frame after any noise and in any chunks |
| rings and queues | `Sequences`, `Rings`, `MediaQueue`, `ControlQueue` | in-place compaction and memmove are FIFO operations |
| output and sessions | `Session`, `SessionProof`, `TxSeqProof`, `SessionControl`, `SessionQueues`, `SessionServer` | the transport sees whole frames; exactly which sessions are numbered 1, 2, 3, ... |
| connections | `Announce` | exactly when a key or media frame reaches the client before the device state of its connection |
| voice | `HostAudio`, `Voice`, `VoiceProof`, `FormatLimit`, `AudioWire`, `VoiceRange`, `VoiceMedia`, `VoiceServer` | whatever the server commits, the host accepts; conservation of octets, units and samples |
| voice to host | `VoiceMoves`, `ClientWire`, `EndToEnd`, `WireRun`, `WholeServer`, `WholeRun` | the whole server on one state, framing, the client's parser and acceptor together: the octets taken decode to records the host accepts |
| keys | `KeyServer`, `LogicalKeys`, `KeysProof`, `KeyLimits` | drained means equal, overflow included; the exact reports for which it fails |
| journal | `Journal`, `JournalProof`, `JournalStore` | a cut write leaves the old record or the new one; ids never repeat |
| radio | `Clock`, `Central`, `CentralProof`, `CentralTask` | one owner, one operation at a time |
| report descriptors | `ReportMap`, `ReportMapProof`, `ReportParser`, `ReportDecoder` | disjoint fields; decoding inverts assembling |
| voice engine | `Atvv`, `AtvvProof`, `AtvvEngine` | frame counting, SYNC, microphone requests |
| trace and IMA | `Bits`, `Trace`, `Ima`, `ImaTable` | interrupts during a copy; exact tracking and an error bound |

Code that updates fields, rings or buffers in place is modelled as classes and methods with
loops (`*Server`, `*Store`, `*Task`, `*Engine`, queues and rings). Each method is proved equal to
a transition function, and the run-level theorems are about those functions. The voice server
keeps its records in the marker queue and octet ring of `MediaQueue` and counts what it delivered
from payload octets; the session server keeps its messages in the slot table of `ControlQueue`, key
states and media in their rings and its output in the wrapped ring of `Rings`. In `WholeServer`
both halves are one state: each flush inside a voice event is the scheduler run on the queues as
they are at that moment. Calls into code
outside the model are parameters: the octet counts the transport accepts, the answers of the
radio stack, which bits the EEPROM had programmed when it failed, the interrupts that happen to
run. Capacities that differ between builds are parameters too.

## Where the code does less than one would expect

- A RESET report from an adapter, without keys, that finds the key queue full while keys are down
  leaves the host with the old keys: the overflow branch reads `pressed_bits` before line 475 of
  `firmware/product/rbp_server.c` clears it. `KeysProof.AgreesExactlyWhenFaithful` gives the exact
  condition and `KeyLimits.ResetInFullQueue` a run that ends there. No adapter in the repository
  sends such a report; the server's own RESET, on link loss, switches events off and is followed
  by a device state on which the client releases everything (`KeyLimits.LinkLossReleasesAll`).
- A SNAPSHOT report that changes the bitmap does not advance `input_seq`, so the host ignores it
  (same condition; `KeyLimits.SnapshotIgnored`; with events off `KeyLimits.SilentSnapshotExactly`).
  The RC003 adapter sends only PHYSICAL reports.
- A record staged with address type above 1 is written, reported as saved and not found after a
  reset (`JournalProof.FoundAgainExactly`, `JournalProof.SavedAndLost`).
- A first pairing torn inside its body and then a torn clear leave a corrupt EEPROM, although the
  first alone is recovered (`JournalProof.SecondCutExactly`, `JournalProof.TornTwice`,
  `JournalProof.FirstPairing`).
- A first write to a blank EEPROM other than a pairing would not be recovered when cut before its
  commit word (`JournalProof.FirstWriteExactly`, `JournalProof.FirstForgetCut`). No caller makes
  one: FORGET is refused without a valid peer (`firmware/product/rbp_server.c`, lines 1698-1722).
- A FORMAT queued when 2^32-1 units were produced is rejected by the host; with fewer it is taken
  (`VoiceProof.FormatHeard`), and a run gets there (`FormatLimit.FormatPastLastUnit`).
- An event reported by the radio from inside the teardown of a HELLO takes sequence number 1
  away from the HELLO reply (`TxSeqProof.NumberedExactly`, `TxSeqProof.CallbackTakesFirstNumber`).
- The scheduler lets key and media frames pass after four control frames. Behind four others, the
  device state of a new connection is overtaken by a START that was queued after it, and the client
  breaks the session. This takes an automatic voice resume: a client that enables voice itself
  knows the connection. `Announce.FlushHeardExactly` and `Announce.RunHeardExactly` give the exact
  condition, `Announce.StartOvertakes` a run.
- A GOODBYE that quotes the session its own chunk's HELLO is about to open is accepted, and the
  session consists of the GOODBYE reply alone (`TxSeqProof.HelloFirstExactly`,
  `TxSeqProof.GoodbyeBeforeHelloReply`).

## Model

| member | source | states |
|---|---|---|
| `VoiceProof.HostAcceptsEveryRun` | client/python/rbp/audio_wire.py:70-109 | Every run of start, format, encoded, fault, end, flush and link-loss events in one session commits a START/FORMAT/DATA/END sequence that the host accepts without error: epochs, frame, unit and sample numbers, offsets and totals match, and streams never overlap |
| `VoiceProof.StepInv` | firmware/product/rbp_server.c:712-781 | Every event keeps the joint invariant of server counters, media queue and host listener, including when enqueuing END itself flushes the queue |
| `VoiceProof.InvAccepts` | client/python/rbp/audio_wire.py:77-109 | In every state of the invariant the committed records have been accepted |
| `VoiceProof.Conservation` | firmware/product/rbp_server.c:689-711 | With a live stream, source octets, units, saturating samples and epoch equal the delivered ones plus those of that stream's queued records |
| `VoiceProof.NothingLostOrInvented` | firmware/product/rbp_server.c:745-771 | The same over whole runs, as explicit sums of octets and units |
| `VoiceProof.EndReportsCapture` | firmware/product/rbp_server.c:643-658 | Each committed END, drained or aborted, reports exactly the octets, complete units, samples and epoch committed since its START, counted from the wire records alone |
| `FormatLimit.FormatPastLastUnit` | firmware/product/rbp_server.c:675-688 | In every session that admits a format a proper run leads to a stream of 2^32-1 units; the FORMAT event that follows is queued and committed, and the host rejects the sequence |
| `WholeRun.StepJoins` | firmware/product/rbp_server.c:712-781 | Every voice event on the one server, its flushes answered by the scheduler and its device states by the control queue as they stand at that moment: voice half and session half end with the same queue and the same committed records |
| `WholeRun.HostHearsTheServer` | client/python/rbp/audio_wire.py:70-109 | From the source's counters to the host: for every sequence of voice events and other traffic and all counts accepted by the transport, whatever octets it has taken, during the session or after its end, and in whatever reads they arrive, the client's parser and record parser find in them the first records committed, whole and in order, and the host accepts them; with the ring empty and the session alive it is all of them |
| `WholeRun.RunSplits` | firmware/product/rbp_server.c:622-781 | Over every run of the one server the voice half makes a run of the voice model and the session half a run of the session model, with equal queues and committed records at the end |
| `WireRun.StepLinked` | firmware/product/rbp_server.c:1008-1049 | Every event of the session, teardown, HELLO and GOODBYE included, keeps the frames since the session began carrying a prefix of the committed records, all of them while it lives, each under the header the client expects |
| `WireRun.LoopTakes` | firmware/product/rbp_server.c:1008-1046 | The scheduling loop takes from the voice half exactly the media frames it commits |
| `EndToEnd.CommittedParse` | client/python/rbp/wire.py:295-342 | Every record that a run commits fits one frame and parses back to itself at the client |
| `EndToEnd.TakenArrives` | protocol/src/rbp_frame.c:235-328 | Any prefix of concatenated frames is received as the frames complete in it and nothing else |
| `ClientWire.FrameParser.Feed` | client/python/rbp/wire.py:197-228 | The client's parser makes of every chunk what the firmware's receiver makes of it, with frames of wrong size, kind or flags as garbage |
| `ClientWire.CobsDecode` | client/python/rbp/wire.py:122-142 | The client's COBS decoder equals the firmware's |
| `ClientWire.ChunksInvisible` | client/python/rbp/wire.py:204-228 | In whatever reads and at whatever times octets arrive, as long as no half frame expires, the events are those of all octets at once |
| `VoiceRange.StepRanged` | firmware/product/rbp_server.c:643-771 | Every event keeps each queued and committed record within the widths of its payload fields |
| `VoiceMedia.KeptStored` | firmware/product/rbp_server.c:632-642 | Filtering the stored payloads by marker is filtering the records they hold |
| `VoiceServer.CountDelivered` | firmware/product/rbp_server.c:699-706 | The delivered counters, updated from payload octets 12 to 23 and 32 to 35 alone, are those of the record in the payload |
| `VoiceServer.Server.FlushOne` | firmware/product/rbp_server.c:689-711 | The head record leaves marker queue and octet ring; what its octets say moves to the delivered counters |
| `VoiceServer.Server.MediaEnqueue` | firmware/product/rbp_server.c:622-631 | Flush once when full, then the payload goes into both rings or is refused; equal to the transition the invariant is proved for |
| `VoiceServer.Server.MediaDiscardCurrent` | firmware/product/rbp_server.c:632-642 | In-place compaction of both rings drops the current stream's queued records but its START |
| `VoiceServer.Server.FinishVoice` | firmware/product/rbp_server.c:643-658 | Ending a stream, drained or cut, with the totals it reports |
| `VoiceServer.Server.FaultVoice` | firmware/product/rbp_server.c:659-674 | A source fault ends delivery with the delivered totals; the flush for END and the device state published after it are two occasions to lose the session |
| `VoiceServer.Server.QueueFormatEvent` | firmware/product/rbp_server.c:675-688 | START or FORMAT record with stream id, epoch, first unit and first sample |
| `VoiceServer.Server.StartEvent` | firmware/product/rbp_server.c:720-740 | Start of a source: stream admission or refusal |
| `VoiceServer.Server.EncodedEvent` | firmware/product/rbp_server.c:745-771 | Encoded data is split into fragments; unit, offset and sample counters advance |
| `VoiceServer.Server.FragmentLoop` | firmware/product/rbp_server.c:757-769 | The fragment loop equals the recursive transition, also when a fragment overruns the queue |
| `VoiceServer.Server.SourceEndEvent` | firmware/product/rbp_server.c:773-780 | End of a source |
| `HostAudio.AudioStream.OnFormatEvent` | client/python/rbp/audio_wire.py:77-83 | FORMAT check and state change; an error leaves the stream as it was |
| `HostAudio.AudioStream.Feed` | client/python/rbp/audio_wire.py:85-98 | Continuity check of one fragment and the advance of unit, offset and saturating samples |
| `HostAudio.AudioStream.End` | client/python/rbp/audio_wire.py:104-109 | END is accepted exactly when all totals match and a drained stream has no open unit |
| `HostAudio.PrefixAccepted` | client/python/rbp/audio_wire.py:70-109 | An accepted sequence was accepted at every prefix |
| `AudioWire.ParseEncoded` | client/python/rbp/audio_wire.py:51-57 | The 40-octet DATA header written by the server parses back to the same fragment |
| `AudioWire.ReadWritten` | client/python/rbp/wire.py:295-342 | Reading written TLV entries gives the same entries, for any entries with consecutive tags |
| `AudioWire.ParseFormatWritten` | client/python/rbp/audio_wire.py:28-36 | The eleven entries of a START or FORMAT payload parse back to the format |
| `AudioWire.ParseEndWritten` | client/python/rbp/client.py:319-319 | The seven entries of an END payload parse back to its totals |
| `AudioWire.ParseWritten` | client/python/rbp/client.py:301-321 | Each media record parses back from its opcode and payload |
| `AudioWire.UnitCompleteOnWire` | firmware/product/rbp_server.c:699-702 | The unit-complete test that reads payload octets 16 to 23 decides as the counters do |
| `AudioWire.EpochAtTwelve` | firmware/product/rbp_server.c:703-705 | Octets 12 to 15 of a START or FORMAT payload are its epoch |
| `AudioWire.PayloadSize` | firmware/product/rbp_server.c:675-688 | Record payloads have the size the queue accounts for and fit one frame |
| `SessionProof.TransportSeesWholeFrames` | firmware/product/rbp_server.c:305-374 | Over every run, with teardowns, GOODBYE and any backend callbacks, the transport has taken a prefix of a concatenation of whole encoded frames |
| `SessionProof.StepAligned` | firmware/product/rbp_server.c:347-374 | Every event keeps taken plus ring equal to whole frames |
| `SessionProof.CutAligned` | firmware/product/rbp_server.c:318-321 | Cutting the ring after its first delimiter keeps it frame aligned, also in the middle of a frame |
| `SessionProof.TryFrameSucceeds` | firmware/product/rbp_server.c:347-360 | The early space test refuses no frame that would have fitted |
| `SessionProof.ReceiverSeesFrames` | protocol/src/rbp_frame.c:235-328 | What the transport has taken of whole frames is read by the receiver as exactly those frames |
| `SessionProof.NoFifthControl` | firmware/product/rbp_server.c:1008-1049 | One flush never sends a fifth control frame while a key or media item waits |
| `SessionProof.OldestFirst` | firmware/product/rbp_server.c:1022-1033 | In every reachable state: in one flush, a frame sent before the fourth control frame is older than every frame that follows it |
| `SessionProof.StepInOrder` | firmware/product/rbp_server.c:622-642 | Every event, discarding, teardown and GOODBYE included, keeps all three queues in the order of arrival |
| `TxSeqProof.SessionsCount` | firmware/product/rbp_server.c:334-360 | If backend calls inside the teardown of a HELLO enqueue nothing, whatever other teardowns report, the frames of each session carry 1, 2, 3, ... without a gap |
| `TxSeqProof.NumberedExactly` | firmware/product/rbp_server.c:330-360 | Over every run and without any assumption: a session with frames is numbered 1, 2, 3, ... exactly when the teardown of its HELLO left no events queued, or it ended before its first frame |
| `TxSeqProof.HelloFirstExactly` | firmware/product/rbp_server.c:1255-1271 | In a session so numbered, the first frame is the HELLO reply exactly when no GOODBYE arrived before that frame was committed |
| `TxSeqProof.StepInv` | firmware/product/rbp_server.c:1470-1481 | Every event, with any backend calls and GOODBYE with its restored ring included, keeps what is said of every session |
| `TxSeqProof.CallbackTakesFirstNumber` | firmware/product/rbp_server.c:330-340 | An event reported from inside the teardown of a HELLO takes number 1 and the reply number 2 |
| `TxSeqProof.GoodbyeBeforeHelloReply` | firmware/product/rbp_server.c:1470-1481 | HELLO and a GOODBYE that quotes the coming session, before any flush: the only frame of that session is the GOODBYE reply, with number 1 |
| `SessionServer.Server.OutTryFrame` | firmware/product/rbp_server.c:347-360 | Frame commit, refusal, and teardown on an exhausted sequence number |
| `SessionServer.Server.FlushQueues` | firmware/product/rbp_server.c:1008-1046 | The scheduling loop over slot table, key ring, media rings and output ring terminates and equals the recursive scheduler |
| `SessionServer.Server.FlushOutput` | firmware/product/rbp_server.c:1008-1049 | Drain, schedule, drain, on the wrapped ring and with any counts the transport accepts |
| `SessionServer.Server.OutDrain` | firmware/product/rbp_server.c:362-374 | The wrapped drain hands over the octets the model says |
| `SessionServer.Server.TearDown` | firmware/product/rbp_server.c:305-333 | Teardown clears the slot table, the key ring and the media rings, drops the identity and cuts the wrapped output ring after its first delimiter |
| `SessionServer.Server.CtlEnqueueItem` | firmware/product/rbp_server.c:551-562 | The message goes into the slot table and its pool; when slots or pool are exhausted the session is torn down |
| `SessionServer.Server.QueueKey` | firmware/product/rbp_server.c:420-436 | A key state takes the next number and a place in the ring, or is refused |
| `SessionServer.Server.QueueMedia` | firmware/product/rbp_server.c:622-631 | A media record takes the next number and a place in both rings, or is refused |
| `SessionServer.Server.HelloRequest` | firmware/product/rbp_server.c:1255-1271 | Teardown with any backend calls, session creation and the HELLO reply |
| `SessionServer.Server.GoodbyeRequest` | firmware/product/rbp_server.c:1470-1481 | With any backend calls in its teardown, the committed ring survives GOODBYE and the reply quotes the closing session |
| `Announce.FlushHeardExactly` | firmware/product/rbp_server.c:1008-1046 | With queues in step with what the client was told: one flush makes the client break the session exactly when it commits a key or media frame younger than the control message behind the burst whose connection is not the one told by the messages of the burst |
| `Announce.RunHeardExactly` | client/python/rbp/client.py:286-290 | Over every run of a session in which key states and media are queued under the newest announced connection: the client takes all of them exactly when no flush let one overtake the device state of its connection |
| `Announce.BrokenUnderPressure` | firmware/product/rbp_server.c:1030-1037 | With room for five frames, no key waiting and more than four control messages: a waiting media head that would overtake its device state does, and the session is broken |
| `Announce.StartOvertakes` | firmware/product/rbp_server.c:1030-1037 | The operations reach it: four responses, the device state of a new connection, a START under it and one flush |
| `SessionControl.Control.Pop` | firmware/product/rbp_server.c:388-412 | On the items the scheduler sees, popping the slot table removes the head |
| `SessionControl.Control.Put` | firmware/product/rbp_server.c:551-562 | The table refuses a message exactly when slots, length or pool do not allow it, and else appends it |
| `Rings.RingWrite` | firmware/product/rbp_server.c:223-235 | Wrapped write: all of the data behind the contents, or nothing |
| `Rings.RingRead` | firmware/product/rbp_server.c:601-606 | Wrapped read of the contents |
| `Rings.OutRing.Drain` | firmware/product/rbp_server.c:362-374 | Whatever counts the transport accepts, sent octets plus the rest are the old contents |
| `Rings.OutRing.Truncate` | firmware/product/rbp_server.c:318-321 | In-place cut of the wrapped ring after its first zero |
| `ControlQueue.Queue.Enqueue` | firmware/product/rbp_server.c:551-562 | The slot table with its payload pool takes a message at the end of a FIFO, or refuses it |
| `ControlQueue.Queue.Pop` | firmware/product/rbp_server.c:388-412 | Pop returns the oldest message; memmove and offset shift keep all other payloads and their order |
| `ControlQueue.Queue.Peek` | firmware/product/rbp_server.c:376-387 | The oldest slot is found by its order number |
| `ControlQueue.Popped` | firmware/product/rbp_server.c:388-412 | After the oldest message at offset 0 is removed, the live regions tile the pool again |
| `ControlQueue.MovedMessages` | firmware/product/rbp_server.c:404-408 | Moving the pool down and lowering the offsets preserves every message |
| `ControlQueue.AddedMessages` | firmware/product/rbp_server.c:551-562 | A new slot at the end of the used pool appends exactly one message |
| `ControlQueue.FreeSlots` | firmware/product/rbp_server.c:551-562 | A free slot exists exactly while fewer messages wait than there are slots |
| `ControlQueue.TiledHolds` | firmware/product/rbp_server.c:388-412 | The used part of the pool is exactly the octets of the waiting messages |
| `MediaQueue.Queue.Enqueue` | firmware/product/rbp_server.c:622-631 | Marker queue plus wrapped octet ring take a record at the end of a FIFO |
| `MediaQueue.Queue.Pop` | firmware/product/rbp_server.c:708-711 | The head record leaves both rings |
| `MediaQueue.Queue.DiscardCurrent` | firmware/product/rbp_server.c:632-642 | Compaction in the same ring is exactly the filter that drops the current stream's non-START records and keeps all other payloads in order |
| `MediaQueue.CompactedIsKept` | firmware/product/rbp_server.c:632-642 | The compacting walk over markers and ring equals the filter |
| `Cobs.DecodeEncode` | protocol/src/rbp_frame.c:52-96 | COBS decoding inverts encoding for every input |
| `Cobs.EncodeFromZeroFree` | protocol/src/rbp_frame.c:52-77 | An encoding contains no zero |
| `Cobs.EncodeFromLength` | protocol/src/rbp_frame.c:52-77 | Lower and upper bound on the encoded length |
| `Cobs.EncodeInto` | protocol/src/rbp_frame.c:52-77 | The encoder with its code-octet cursor writes exactly the encoding |
| `Cobs.DecodeInPlace` | protocol/src/rbp_frame.c:79-96 | Decoding over its own input gives the decoding of the original octets |
| `Frame.UnpackPack` | protocol/src/rbp_frame.c:112-148 | Every header survives packing and parsing |
| `Frame.WireShape` | protocol/src/rbp_frame.c:165-199 | A frame on the wire ends in its only zero and is between payload+38 and 552 octets long |
| `Frame.EncodeFrame` | protocol/src/rbp_frame.c:165-199 | The three-piece streaming encoder writes COBS of header, payload and CRC, then one zero |
| `Frame.ReceiveEncoded` | protocol/src/rbp_frame.c:112-199 | A decoded frame has the completed header, the same payload and a good CRC |
| `Receiver.FrameDelivered` | protocol/src/rbp_frame.c:235-309 | From any parser state, after octets ending in a delimiter, an encoded frame fed in any chunks within the time-out yields exactly one event: that frame, CRC good |
| `Receiver.DrainConcat` | protocol/src/rbp_frame.c:235-328 | At a fixed clock, draining xs then ys gives the events and state of draining xs+ys |
| `Receiver.FeedAdvances` | protocol/src/rbp_frame.c:235-328 | One feed call is one step of the drain, time-out and overflow events included |
| `Receiver.StaysFresh` | protocol/src/rbp_frame.c:302-307 | The trailing time-out test of a feed call cannot fire: an octet never leaves an expired frame |
| `Receiver.RunValid` | protocol/src/rbp_frame.c:221-328 | A parser in frame holds between 1 and 551 octets after every run |
| `Receiver.Resynchronised` | protocol/src/rbp_frame.c:235-309 | After any octets, a delimiter resynchronises |
| `Receiver.Parser.FeedBytes` | protocol/src/rbp_frame.c:235-309 | The feed loop with its buffer, state and resume cursor |
| `Receiver.Parser.Pump` | protocol/src/rbp_frame.c:311-328 | The drain loop terminates although a time-out event consumes nothing |
| `KeysProof.HostHoldsServerKeys` | firmware/product/rbp_server.c:438-486 | Over all runs of reports, EVENTS_ENABLE on and off, KEYS_SNAPSHOT and flushes: the client never rejects a key message, and whenever events are on and nothing is under way the host holds the server's bitmap, also after overflow |
| `KeysProof.AgreesExactlyWhenFaithful` | firmware/product/rbp_server.c:455-486 | Exactly which reports the host ends up agreeing with: not a RESET without keys into a full queue while keys are down, nor a SNAPSHOT report that changes the bitmap without a full queue |
| `KeyLimits.LinkLossReleasesAll` | firmware/product/rbp_server.c:838-847 | The link is lost in any reachable state and with any queue: the client rejects nothing on the way and, once it takes the device state, holds no key, as does the server; its events replay to no key held |
| `KeyLimits.KeysGoFirst` | firmware/product/rbp_server.c:838-847 | Every key state waiting at link loss is older than the device state that follows it |
| `KeyLimits.SilentSnapshotExactly` | firmware/product/rbp_server.c:477-486 | With events off and no response under way: after enabling and draining, the host agrees with a SNAPSHOT report exactly when it repeats the bitmap or its number was never told |
| `KeyLimits.ResetInFullQueue` | firmware/product/rbp_server.c:467-476 | Seven presses fill the queue and a RESET report without keys follows: after everything is delivered the host holds a key that the server has released |
| `KeyLimits.SnapshotIgnored` | firmware/product/rbp_server.c:477-486 | A SNAPSHOT report with a key while events are on: after everything is delivered the host holds none |
| `KeysProof.StepInv` | client/python/rbp/client.py:292-299 | Every step keeps the joint invariant of queue, wire, responses, client gate and reducer |
| `KeyServer.Keys.Push` | firmware/product/rbp_server.c:420-436 | The eight-slot ring takes one state or refuses it |
| `KeyServer.Keys.EmitState` | firmware/product/rbp_server.c:438-453 | Emission, and on overflow RESET then SNAPSHOT |
| `KeyServer.Keys.OnKeys` | firmware/product/rbp_server.c:455-486 | PHYSICAL, RESET and SNAPSHOT reports |
| `KeyServer.Keys.EventsEnable` | firmware/product/rbp_server.c:1882-1895 | Enabling emits a snapshot, disabling clears the queue |
| `KeyServer.Keys.FlushOne` | firmware/product/rbp_server.c:488-503 | The oldest state leaves the ring exactly when the frame was accepted |
| `KeyServer.ParsePack` | client/python/rbp/client.py:339-344 | The client parses a packed state back exactly when it is sane |
| `KeyServer.PackParse` | client/python/rbp/client.py:339-344 | Each payload the client accepts is the packing of what it reads |
| `LogicalKeys.EveryRunReplays` | client/python/rbp/input.py:68-105 | Over any install, reset and feed calls, replaying the emitted events gives the pressed keys; every up is of a held key, every down of a released one, every reset comes last |
| `LogicalKeys.FeedReplays` | client/python/rbp/input.py:86-105 | One feed: its ups and downs lead from the old keys to the new ones |
| `LogicalKeys.ResetReplays` | client/python/rbp/input.py:79-84 | Reset releases all held keys, then says reset |
| `LogicalKeys.KeysDetermineBits` | client/python/rbp/input.py:62-64 | The held keys of a valid catalog determine the bitmap |
| `LogicalKeys.Reducer.FeedState` | client/python/rbp/input.py:86-105 | The feed method, its errors and what it emits |
| `LogicalKeys.Reducer.Adopt` | client/python/rbp/input.py:68-77 | install: catalog checks, the implied reset, the new source |
| `LogicalKeys.Reducer.Forget` | client/python/rbp/input.py:79-84 | reset |
| `JournalProof.OldOrNew` | firmware/wch/board.c:138-161 | Cutting or failing a write anywhere and reloading gives exactly the old record or exactly the new one, and the new one whenever it returned true |
| `JournalProof.OneOfThree` | firmware/wch/board.c:138-161 | The same when an earlier write was committed but reported as failed: then one of three records |
| `JournalProof.FoundAgainExactly` | firmware/wch/board.c:89-93 | A write that returned true is found again exactly when the staged address type is 0 or 1; otherwise the old record comes back |
| `JournalProof.PageAfterWrite` | firmware/wch/board.c:148-158 | The written page is untouched, no record, or the whole new record, whatever bits had been programmed |
| `JournalProof.LoadPicks` | firmware/wch/board.c:94-108 | Loading takes the committed record with the larger generation; a failed read gives state 255 |
| `JournalProof.IdsOverAnyRun` | firmware/wch/board.c:164-168 | Over any operations, failures, power cuts and resets, from a blank or a written EEPROM, ids handed out by pairing strictly increase |
| `JournalProof.StepInv` | firmware/wch/board.c:138-187 | Every operation keeps RAM and EEPROM in step and generations distinct |
| `JournalProof.SavedIsLoaded` | firmware/wch/board.c:178-186 | A peer whose save returned true is what store_load returns, at once and after any reset that can read the EEPROM: id, flag and name |
| `JournalProof.FirstPairing` | firmware/wch/board.c:109-136 | From a blank EEPROM any partial 1-to-0 programming of the first pairing record reloads as still blank or as pending, never as corrupt or saved |
| `JournalProof.ClearCommits` | firmware/wch/board.c:187-187 | An undisturbed clear from any good state commits a saved record, exactly when the generation is not exhausted |
| `JournalProof.FirstPairingThenClear` | firmware/wch/board.c:109-136 | Programmed in order, a first pairing cut at any octet and then cleared always ends in a saved record |
| `JournalProof.SecondCutExactly` | firmware/wch/board.c:109-136 | A first pairing cut anywhere, a reload, a clear cut anywhere: the EEPROM reloads as corrupt exactly when the pairing body was torn and the clear was cut after its first programmed bit and before its commit word |
| `JournalProof.TornTwice` | firmware/wch/board.c:119-135 | The operations reach it: pairing and clear both cut after one octet |
| `JournalProof.FirstWriteExactly` | firmware/wch/board.c:109-136 | Any first write to a blank EEPROM, cut anywhere: exactly when it reloads as corrupt |
| `JournalProof.FirstForgetCut` | firmware/wch/board.c:169-169 | A first write that is not a pairing, cut before its commit word, reloads as corrupt |
| `JournalProof.SavedAndLost` | firmware/wch/board.c:89-93 | An address of type 2 staged, a peer saved with success, a restart: the record from before is back |
| `Journal.CommittedReads` | firmware/wch/board.c:89-93 | Every field of a written record reads back, and the page is valid exactly when state and address type are in range |
| `Journal.BodyReads` | firmware/wch/board.c:143-150 | Staged address, HID flags and name are at their offsets |
| `JournalStore.Store.LoadSlots` | firmware/wch/board.c:94-137 | The loading loops, with failing reads and the recovery of a first pairing |
| `JournalStore.Store.Write` | firmware/wch/board.c:138-161 | Erase, program, verify, commit, verify, then RAM |
| `JournalStore.Store.BeginPair` | firmware/wch/board.c:164-168 | board_begin_pair |
| `JournalStore.Store.BeginForget` | firmware/wch/board.c:169-169 | board_begin_forget |
| `JournalStore.Store.SavePeer` | firmware/wch/board.c:183-186 | store_save |
| `JournalStore.Store.ClearPeer` | firmware/wch/board.c:187-187 | store_clear, also before anything is loaded |
| `CentralProof.EveryRunOwnsTheRadio` | firmware/wch/wch_central.c:282-381 | Over every order of controller events, server calls and polls: the handle is real exactly in CONNECTED and DISCONNECTING; discovery, link requests and bond erasure happen only in IDLE with no radio fault; between two sightings of a ready adapter at most two retries are immediate |
| `CentralProof.OneOperationAtATime` | firmware/wch/wch_central.c:183-201 | With a controller that reports only what it was doing, nothing is under way on it whenever something is started or bonds are erased |
| `CentralProof.StepOwned` | firmware/wch/wch_central.c:282-585 | Every event keeps ownership |
| `CentralTask.Task.Dispatch` | firmware/wch/wch_central.c:282-585 | Every callback, call and poll equals its transition |
| `ReportMapProof.AcceptedIsDecodable` | firmware/adapters/hogp/report_map.c:7-91 | For every accepted descriptor: capacities hold, no 16-bit size overflows, the fields of one report are pairwise disjoint and inside it, no report exceeds 512 bits, every field has its report |
| `ReportMapProof.ItemsOk` | firmware/adapters/hogp/report_map.c:14-75 | All table invariants after any accepted items |
| `ReportDecoder.DecodeAssembled` | firmware/adapters/hogp/report_map.c:145-168 | Whatever values are put into the controls of a report, decoding it gives the keys of exactly those values |
| `ReportDecoder.ReadBits` | firmware/adapters/hogp/report_map.c:154-155 | The bit loop equals shifting and masking the report as one little-endian number |
| `ReportDecoder.DecodeReport` | firmware/adapters/hogp/report_map.c:145-168 | The decoder, reading only inside a report of the exact length |
| `ReportParser.ParseMap` | firmware/adapters/hogp/report_map.c:7-91 | The parsing loop, its tables and every rejection |
| `ReportParser.TakeInput` | firmware/adapters/hogp/report_map.c:34-72 | One Input item |
| `ReportParser.KeepUseful` | firmware/adapters/hogp/report_map.c:80-90 | Only reports with decodable fields are kept |
| `AtvvProof.EveryRun` | firmware/adapters/rc003/rc003_atvv.c:158-170 | In every run frame counter and offset are quotient (mod 65536) and remainder of the octets forwarded since START, an accepted MIC_OPEN is never written again, and the sink hears begin, started, data and formats, end in order |
| `AtvvProof.SyncExactly` | firmware/adapters/rc003/rc003_atvv.c:118-129 | In every run a well-formed SYNC adopts its seed and rate and is announced exactly once if the octets forwarded since START are a whole number of frames and it names that number mod 65536; otherwise, and only then, the stream fails |
| `AtvvProof.StartCloses` | firmware/adapters/rc003/rc003_atvv.c:99-117 | START of a microphone no longer wanted writes MIC_CLOSE for its stream as the last thing it does, and queues it again when the write fails |
| `AtvvProof.StopBeforeStart` | firmware/adapters/rc003/rc003_atvv.c:195-208 | A stop requested before START, in any run: a MIC_OPEN not yet written is withdrawn; otherwise, over any inputs that follow, the wish holds until the request is given up or the first START is answered with MIC_CLOSE |
| `AtvvProof.StepInv` | firmware/adapters/rc003/rc003_atvv.c:88-215 | Every control message, audio packet, tick and request keeps the invariant |
| `AtvvEngine.Engine.HandleControl` | firmware/adapters/rc003/rc003_atvv.c:88-157 | Control messages |
| `AtvvEngine.Engine.HandleAudio` | firmware/adapters/rc003/rc003_atvv.c:158-170 | Audio packets |
| `AtvvEngine.Engine.HandleTick` | firmware/adapters/rc003/rc003_atvv.c:171-194 | Time-outs, rewriting, keep-alive |
| `Trace.Ring.Peek` | firmware/debug/trace.c:43-51 | With interrupts logging before every single copy, peek returns exactly the oldest records queued at its snapshot |
| `Trace.EveryNumberAccounted` | firmware/debug/trace.c:22-33 | Over every run, numbers given out = consumed + queued + dropped (mod 2^32) |
| `Trace.OrderKept` | firmware/debug/trace.c:22-53 | Before the counter wraps, consumed and queued records carry strictly ascending numbers |
| `Trace.Ring.LogNote` | firmware/debug/trace.c:22-33 | Filtering, numbering, dropping when full |
| `Trace.Ring.ConsumeRecords` | firmware/debug/trace.c:52-52 | Consuming drops the oldest records |
| `Ima.DecodeEncode` | sim/sim_remote.c:539-563 | For every sample sequence and start state, decoding the encoder's octets gives exactly its predictors and ends in its state |
| `Ima.DecoderTracks` | client/c/ima_decoder.c:18-35 | One nibble: the decoder reaches the encoder's predictor and index |
| `Ima.ErrorBound` | sim/sim_remote.c:539-563 | A sample within two steps leaves an error of at most step/8+2 and step/4+1, even with clamping; a farther one is approached |
| `Ima.DecodeConcat` | client/c/ima_decoder.c:37-54 | Decoding may be split anywhere with carried state |
| `Ima.DecodeInto` | client/c/ima_decoder.c:37-54 | The output loop: whole octets, as many as fit |
| `ImaTable.StreamError` | client/c/ima_decoder.c:3-54 | For the codec's own step table: each sample the client decodes from any encoded stream is within step/8+2 of the original when the predictor was within two steps, and nearer to it than the predictor otherwise |

## Left out

- VoiceProof.HostAcceptsEveryRun: assumes that a format change finds fewer than 2^32-1 units, that 32-bit epochs and stream ids are refused at exhaustion as the code does, and that fault reasons are not 0, 7 or 8; the negotiated codec list is fixed for the run.
- TxSeqProof.SessionsCount: assumes that backend calls made inside the teardown of a HELLO enqueue nothing; `TxSeqProof.NumberedExactly` says what happens without that.
- WholeRun.HostHearsTheServer: assumes, besides what `VoiceProof.HostAcceptsEveryRun` does, that the 64-bit octet counter of a stream is not exhausted and that other traffic does not use the media opcodes or header flags; it follows the media of one session, a later HELLO being the start of another run; backend calls report only from a teardown that the voice half itself or other traffic asks for, not from one inside a flush or an enqueue; response correlation and sequence numbers at the client are not part of it.
- ClientWire.FrameParser.Feed: the client's millisecond clock is below 2^32 and does not run backwards.
- Announce.RunHeardExactly: the client learns connections from device states; an answer to GET_DEVICE, which it takes in when the request returns, is not modelled.
- KeysProof.HostHoldsServerKeys: reports satisfy the condition of `AgreesExactlyWhenFaithful`, bitmaps use only catalog slots, reasons are 0 to 3, and `input_seq` does not wrap; snapshots asked for outside the logical key service, which bypass the reducer, are not modelled; with events off a SNAPSHOT report may change the bitmap only while its number was told to nobody, which `KeyLimits.SilentSnapshotExactly` shows to be exact when no response is under way.
- JournalProof.IdsOverAnyRun: staged address types are 0 or 1; erasing a page is atomic and a successful read returns the page.
- CentralProof.EveryRunOwnsTheRadio: server and adapter calls made by the radio task return without calling back into it, and the controller never uses the sentinel 0xFFFE as a handle.
- AtvvProof.EveryRun: the sink has an `on_fault` callback, as the RC003 adapter installs one; sink callbacks do not call back into the engine.
- Trace.OrderKept: stated for runs in which the 32-bit record number does not wrap.
- ReportDecoder.DecodeReport: the 64-bit key bitmap is a set of key ids below 64; the fixed boot keyboard layout is not modelled.
- Ima.DecodeInto: the nibble decoder is a parameter, so the loop is proved for any of them; `Ima.Decoder` is the IMA one.
- Cobs and Frame: the CRC table is computed from the polynomial instead of being listed; nothing is claimed about the strength of the CRC.
- The order numbers that the three queues share are unbounded here; their 32-bit wrap-around is not modelled.
- Requests other than HELLO, GOODBYE, EVENTS_ENABLE and KEYS_SNAPSHOT, and the fields of their replies, appear only as messages that are enqueued.
- TLV writing and reading apart from the media payloads; text and boolean entries.
- Wall-clock time-outs of the host's audio stream, server heartbeats, statistics, and debug-only paths.
- USB loss: the ring is dropped with the transport, so frame alignment is not at stake.
- GATT discovery, the GATT cache (`cache_store.inc`), the Unicom profile, SMP identity, USB registers and start-up code: bound to the vendor SDK.
- Candidate lists, names and addresses of the radio task, except for the number of candidates.
- ICO/G.722.1 decoding, GUI, recorder, transports and simulator plumbing.

# golive: a verified model

golive is a live-streaming server. This project models the parts of it that carry state over whole runs and proves,
for every input and every run, what they keep:

- **RTMP chunk streams** (`rtmp_*.dfy`). The packer cuts messages into chunks and compresses their headers against
  per-stream state; the unpacker and the collector rebuild them from two maps. `RtmpPack` is the value-level
  description, `RtmpObjects` holds the mutating objects proved to follow it, `RtmpRoundTrip` and `RtmpRun` the
  sender/receiver simulation, `RtmpWire` the bytes themselves, `RtmpReader` what holds for any input, `RtmpResize`
  exactly which chunk size changes are understood, `RtmpInterleave` the reassembly of interleaved messages.
- **The source/sink exchange** (`exchange*.dfy`). A transition system with one step per channel operation of the pairing
  goroutine, the source goroutines and the sink goroutines; `ExchangeSafety` proves one invariant preserved by every
  step, `ExchangeLaws` reads the guarantees off it, `ExchangePassing` says what each handler does and what sources
  pass on, `ExchangeStuck` when the pairing goroutine can go on, `ExchangeObjects` has the handlers as methods.
- **The fragmented MP4 muxer and its box codec** (`mp4_*.dfy`, `fmp4*.dfy`): sizes and offsets computed ahead of the
  bytes they describe, over whole muxing runs; `Fmp4Layout` finds every frame in the finished file,
  `Fmp4Segments` ties each fragment to the input it came from, `Mp4Bytes` puts every box field at its byte.
- **The bit reader** (`bitreader.dfy`): a 64-bit shift buffer over a source with short reads, against a plain list of
  bits, and exactly when it succeeds.
- **AMF0 and AMF3** (`amf*.dfy`): recursive writers and readers, with the byte counts they report.
- **The RTMP client's negotiation** (`client*.dfy`): which sequences of received messages lead where.

Operations that change things step by step are methods of classes, each proved against a function on values; the theorems
are about those functions. `uint32` and `uint64` arithmetic wraps around explicitly. Readers are byte sequences with what
is left of them. Errors and panics of the program are results of the model, not preconditions.

Where the code differs from what one would expect, the code is followed and the exact condition is proved:

- A type 0 header carries the time delta, 0 for a fresh message, and not the timestamp, so a receiver's clock lags behind
  by the timestamp of the last type 0 message (`RtmpRun.WellTimedRoundTrip`). A message that takes the type 3 path on an
  equal delta arrives with the previous timestamp (`RtmpRun.EqualDeltaIsLate`); `RtmpRun.DeliveredExactIff` says exactly
  which messages of a run keep their timestamp.
- Headers with an extended timestamp, and chunk stream ids of 64 and more, are not read the way they are written
  (`RtmpChunk.HeaderMirrorsIff`, `RtmpChunk.BasicMirrorsIff`); `RtmpRun.NoDriftIff` says exactly which type 1 headers make
  the two clocks drift apart.
- A set-chunk-size message is cut by the new size and read by the old one, so the receiver understands it exactly when
  the two are equal or both cover its four bytes (`RtmpResize.ResizeArrivesIff`).
- `curTrackOffset` is not reset between the fragments of a segment, so a fragment is laid out right exactly when the media
  data written since its segment began is a multiple of 4 GiB (`Fmp4Layout.LaidOutIff`); `Fmp4Layout.MisplacedRun` is a
  run of five frames whose second fragment is laid out wrong.
- Metadata wrapped with the long AMF0 string form loses two bytes too few (`ExchangePassing.LongFormLeavesTwo`).
- Every fragment has sequence number 1: the program never counts it up (`Fmp4Segments.FragmentsAreStretches`).
- Audio sample sizes leave out the four-byte length written before each frame (`Fmp4Layout.AudioFramesInFile`).
- The AMF0 writer's count for a name is a 16-bit sum and for a string a 32-bit one, so it is short for names over 65533
  bytes and strings over 2^32 - 6 (`Amf0.CountExactIff`).
- AMF strings cut short are read anyway, padded with zeros (`AmfForms.CutStringPads`).
- An empty AMF3 byte array can be read back only when something follows it (`Amf3.EmptyBlobReadsIff`).
- The pairing goroutine sends to a source's queue without looking whether anyone still takes from it, so one source that
  has quit with a full queue stops all pairing (`ExchangeStuck.IdleAgainIff`, `ExchangeStuck.StuckRunSticks`).
- The client stores a stream id of 0 when the createStream response carries none.

## Model

| member | source | states |
|---|---|---|
| RtmpChunk.BasicMirrorsIff | protocol/rtmp/chunk.go:251-268 | a basic header is read back as written, leaving what follows, exactly for chunk stream ids 2 to 63 |
| RtmpChunk.ReadType0 | protocol/rtmp/chunk.go:155-182 | a type 0 header is read back exactly when no extended timestamp is announced or the announcement is mirrored; otherwise four bytes are left over |
| RtmpChunk.ReadType1 | protocol/rtmp/chunk.go:184-210 | the same for type 1 headers, where a mismatch eats into what follows or leaves bytes over |
| RtmpChunk.ReadType2 | protocol/rtmp/chunk.go:212-231 | a type 2 header is always read back as the delta written |
| RtmpChunk.HeaderMirrorsIff | protocol/rtmp/chunk.go:270-327 | a whole chunk header of any of the four formats is consumed exactly, and read as its fields, if and only if its timestamp field and extended timestamp agree |
| RtmpRoundTrip.PackShape | protocol/rtmp/pack.go:141-202 | whatever the stream's state, a packed message is one compressed header and then continuation headers only, cut every chunk size bytes, and other chunk streams are untouched |
| RtmpWire.PackedOnWire | protocol/rtmp/pack.go:141-202 | what any message puts on the wire, from the state before it: nothing for an empty or a misplaced one; otherwise its opening header byte for byte, the payload cut every chunk size bytes, a further header before each cut; and what the chunk stream remembers afterwards, other chunk streams untouched |
| RtmpWire.FirstByte | protocol/rtmp/pack.go:165-197 | the first byte: chunk stream by message type; format 0 exactly for a new chunk stream, an always-full message or another message stream, otherwise 1 exactly when length or type changed, 3 exactly when timestamp or time step repeats, else 2; and where the payload starts |
| RtmpWire.RunOnWire | protocol/rtmp/pack.go:237-254 | the same for every message of every run, in the state the events before it leave |
| RtmpWire.VideosSpelled | protocol/rtmp/chunk.go:251-300 | two video messages 10 ms apart, byte for byte: the second opens with 0x86 and a 3-byte delta |
| RtmpWire.ResizeSpelled | protocol/rtmp/message.go:193-202 | a set-chunk-size message, byte for byte |
| RtmpRoundTrip.ContAll | protocol/rtmp/pack.go:89-124 | a message under way is completed by its remaining chunks, however many, and nothing beyond them is read |
| RtmpRoundTrip.WholeMessage | protocol/rtmp/message.go:71-122 | a message opened by any header format is delivered whole, with both `remain` counters back at zero |
| RtmpReader.MessageLocal | protocol/rtmp/pack.go:89-124 | with any input, unless it runs out of it, the receiver does the same whatever follows and leaves that untouched |
| RtmpReader.CutShort | protocol/rtmp/pack.go:89-124 | every strict start of what makes a message ends in running out of input; nothing is delivered |
| RtmpReader.PanicsIff | protocol/rtmp/message.go:71-108 | a step panics exactly when a chunk without a full header comes for a message stream never heard of |
| RtmpReader.ControlDelivered | protocol/rtmp/pack.go:102-121 | control messages are delivered only from message stream 0 on chunk stream 2 |
| RtmpReader.OthersDelivered | protocol/rtmp/pack.go:102-121 | and every other completed message is delivered, each refusal with its error |
| RtmpRoundTrip.MessageInStep | protocol/rtmp/pack.go:213-254 | after one message sender and receiver agree again on length, type and stream id, and on clocks up to the recorded lag |
| RtmpRun.PiecesAgreeIff | protocol/rtmp/message.go:125-168 | two chunk sizes cut a payload alike exactly when they are equal or both cover it |
| RtmpResize.ResizeArrivesIff | protocol/rtmp/clientHandler.go:234-238 | a set-chunk-size message is delivered as sent, with nothing after it disturbed, exactly when the size stays the same or both sizes are at least 4 |
| RtmpResize.ReadsTooMuch | protocol/rtmp/pack.go:76-87 | a receiver with larger chunks never delivers it: a header byte takes the place of payload |
| RtmpResize.ReadsTooLittle | protocol/rtmp/pack.go:28-46 | nor does one with smaller chunks: payload is taken for a header, and the message cannot be complete without bytes that follow it |
| RtmpRun.RunInStep | protocol/rtmp/pack.go:28-87 | the simulation: over any run of messages and chunk size changes the receiver delivers what was sent, in order, without error or panic, and ends in step with the sender |
| RtmpRun.ArrivalsAreEmitted | protocol/rtmp/pack.go:213-235 | what arrives is every message that was not refused and not empty, equal in type, stream and payload |
| RtmpRun.RoundTrip | protocol/rtmp/pack.go:23-25 | from fresh endpoints of any equal chunk size every emitted message arrives with its contents, in order, and both sides end with the same chunk size |
| RtmpChunk.DeltaAsRead | protocol/rtmp/chunk.go:184-210 | the delta any type 1 header is read with: its 24-bit field, or, when that is all ones, the four bytes after the header, extension or not |
| RtmpRun.NoDriftIff | protocol/rtmp/pack.go:47-74 | for every type 1 header as read from the wire, with d the time since the sender's stored clock: unless the low 24 bits of d are all ones, both stored clocks move alike exactly when d is below 2^24; if they are, exactly when the timestamp is over 0xffffff or the next four bytes happen to spell d; and when the header cannot be read at all |
| RtmpRun.ExtendedDeltaDrifts | protocol/rtmp/chunk.go:287-292 | a message stamped 0x1000005 after a clock of 0: the receiver's clock moves by 5, and the extension bytes stay in the way |
| RtmpRun.WellTimedInStep | protocol/rtmp/pack.go:165-197 | with timestamps below 0xffffff and non-decreasing per chunk stream every run is safe, and the clock lag of a chunk stream is the timestamp of its last type 0 message |
| RtmpRun.WellTimedRoundTrip | protocol/rtmp/pack.go:141-202 | on that domain the contents arrive in order and, at the end of every run, the two sides agree on every chunk stream with exactly that lag |
| RtmpRun.TimestampExactIff | protocol/rtmp/pack.go:165-197 | a message keeps its timestamp exactly when, told from the state before it: on a new or restarted chunk stream it is stamped 0; otherwise the stream was started with 0 and the message does not repeat length, type and time step |
| RtmpRun.DeliveredExactIff | protocol/rtmp/pack.go:165-197 | in every well-timed run between fresh endpoints the message of event k is delivered exactly as sent if and only if that holds in the state the events before it leave |
| RtmpRun.RunExactIff | protocol/rtmp/pack.go:165-197 | a well-timed run is delivered exactly as sent, timestamps included, if and only if it holds of every message |
| RtmpRun.EqualDeltaIsLate | protocol/rtmp/pack.go:177-179 | three messages 10 ms apart: the third arrives with the second one's timestamp |
| RtmpInterleave.StartTurn | protocol/rtmp/pack.go:47-87 | a first chunk, with any other messages in flight: it is consumed exactly, a one-chunk message is delivered, and the receiver then holds exactly what the flights say, both `remain` counters included |
| RtmpInterleave.ContinueTurn | protocol/rtmp/pack.go:76-87 | the same for a continuation chunk |
| RtmpInterleave.AnyInterleaving | protocol/rtmp/message.go:71-108 | for every legal interleaving each message is delivered exactly when its last chunk arrives, nothing else is reported, and what is held is exactly the unfinished messages |
| RtmpInterleave.Conservation | protocol/rtmp/message.go:110-122 | every message started is delivered once or is still in flight |
| RtmpObjects.Input.Take | protocol/rtmp/chunk.go:237-249 | a full read gives exactly the next bytes, or the end of the input |
| RtmpObjects.MessageCollector.HandleReceiveChunk | protocol/rtmp/message.go:71-108 | the collector's map and result after a chunk, errors and panics included |
| RtmpObjects.MessageCollector.GetMessage | protocol/rtmp/message.go:110-122 | hands out the collected message and leaves the stream idle |
| RtmpObjects.ChunkUnpacker.ReadBasicHeader | protocol/rtmp/chunk.go:73-102 | reads the basic header the value-level reader reads, and consumes the same bytes |
| RtmpObjects.ChunkUnpacker.ReadMessageHeader | protocol/rtmp/chunk.go:139-235 | the same for the four message headers and the extended timestamp |
| RtmpObjects.ChunkUnpacker.OpenMessage | protocol/rtmp/pack.go:47-74 | how each header format updates a chunk stream on which no message is under way |
| RtmpObjects.ChunkUnpacker.ReadChunk | protocol/rtmp/pack.go:28-87 | stream map, remaining input and result after one chunk |
| RtmpObjects.ChunkUnpacker.GetRtmpMessage | protocol/rtmp/pack.go:89-124 | the loop that reads chunks until a message is whole |
| RtmpObjects.ChunkUnpacker.SetChunkSize | protocol/rtmp/pack.go:23-25 | replaces the size and nothing else |
| RtmpObjects.ChunkPacker.ToType0Chunk | protocol/rtmp/message.go:125-168 | the loop cuts the payload into the pieces the description names |
| RtmpObjects.ChunkPacker.Compress | protocol/rtmp/pack.go:150-197 | the header format chosen and the chunk stream's new state |
| RtmpObjects.ChunkPacker.SerializerChunk | protocol/rtmp/pack.go:141-202 | bytes and state after all chunks of a message |
| RtmpObjects.ChunkPacker.WriteMessage | protocol/rtmp/pack.go:213-254 | refuses exactly the control messages (types 1 to 6) on a non-zero message stream; otherwise writes the bytes, and leaves the state, that RtmpWire.PackedOnWire spells out |
| RtmpObjects.ChunkPacker.SetChunkSize | protocol/rtmp/pack.go:204-206 | replaces the size and nothing else |
| RtmpObjects.SendAll | protocol/rtmp/message.go:193-202 | sending any sequence of messages and chunk size changes gives the wire bytes of the run |
| RtmpObjects.ReceiveAll | protocol/rtmp/clientHandler.go:97-118 | the receiving loop, with its reaction to set-chunk-size, gives the drained run |
| RtmpObjects.Relay | protocol/rtmp/clientHandler.go:174-187 | two live objects joined by a wire: over any well-timed run with any number of chunk size changes what was sent comes out, in order |
| ExchangeSafety.StepInv | exchange/expair.go:83-101 | every step of every goroutine keeps the invariant over registry, waiting lists, queues, maps and channels |
| ExchangeSafety.RunInv | exchange/expair.go:172-199 | so does every run |
| ExchangeLaws.NeverPanics | exchange/expair.go:268-284 | no duplicate or not-registered panic is reachable when handlers register once and only accepted sources unregister |
| ExchangeLaws.GapFree | exchange/expair.go:201-245 | a connected sink was given the configurations known when it joined and then every message passed on since, in order |
| ExchangePassing.RunPasses | exchange/expair.go:201-220 | in every run a source has handled exactly the messages it took from its queue, each passed on unchanged or, if it is data that carries "@setDataFrame", without its first 16 bytes; it took what was put there, in order; and it is poisoned exactly when one taken was undecodable |
| ExchangePassing.WrappedPasses | exchange/expair.go:247-266 | after the short AMF0 string, what follows it is passed on |
| ExchangePassing.Wrapped3Passes | exchange/expair.go:247-266 | the same after the AMF3 string |
| ExchangePassing.LongFormLeavesTwo | exchange/expair.go:247-266 | after the long AMF0 string, its last two bytes are passed on as well |
| ExchangePassing.MessageOffered | exchange/expair.go:222-245 | each connected sink with room gets what is passed on, once; each without is cancelled and removed; no other sink is touched |
| ExchangePassing.SinkConnected | exchange/expair.go:409-447 | a sink that connects is given the video configuration and then the audio configuration, if known |
| ExchangePassing.SinkDisconnected | exchange/expair.go:460-475 | a connected sink is cancelled and removed, one that is not is left alone |
| ExchangePassing.SourceQuits | exchange/expair.go:172-199 | every connected sink is cancelled, and no other |
| ExchangePassing.PipeInOrder | exchange/expair.go:83-101 | requests join the pipe at its end and are taken from its head |
| ExchangePassing.SourceRegistered | exchange/expair.go:140-170 | a source is accepted exactly when its key is free, and is then to be sent every sink waiting for it |
| ExchangePassing.SourceUnregistered | exchange/expair.go:268-284 | a source that leaves frees its key and nothing else |
| ExchangePassing.SinkRegistered | exchange/expair.go:314-350 | a sink is sent on to the source that has its key, or joins that key's waiting list |
| ExchangePassing.SinkUnregistered | exchange/expair.go:352-384 | a sink that leaves is told off at that source, or leaves the list, which goes when it is empty |
| ExchangeLaws.ConfigIsFresh | exchange/expair.go:409-458 | the last video and audio configuration given to a connected sink is the source's current one, whenever it joined |
| ExchangeLaws.OnePlace | exchange/expair.go:314-334 | a sink registration sits in at most one place: waiting list, queue position or sink map |
| ExchangeLaws.SomePlace | exchange/expair.go:336-350 | until it is gone for good it sits in one |
| ExchangeLaws.RegistryExclusive | exchange/expair.go:140-170 | a key is registered or waited for, never both; waiting lists are non-empty and hold their own key's sinks |
| ExchangeLaws.UnregisterComesAfter | exchange/expair.go:460-475 | in a source's queue an unregister never precedes the register it undoes |
| ExchangeLaws.UnregisterFollows | exchange/expair.go:352-371 | while a sink's source stays registered its unregistration goes to that same source |
| ExchangeLaws.LifeStep | exchange/expair.go:386-407 | a sink's registration only moves forwards, and its channel's history only grows |
| ExchangeLaws.FullSinkIsDropped | exchange/expair.go:222-245 | the first failed put cancels the sink and removes it, and leaves its history as it was |
| ExchangeLaws.GoneForGood | exchange/expair.go:222-236 | a dropped sink gets nothing more and is connected to nothing, for the rest of every run |
| ExchangeLaws.WaitersAreForwarded | exchange/expair.go:140-170 | when a source registers, every sink waiting for its key enters that source's queue at most once in any run, no other queue ever, and has entered it once the pairing goroutine is idle again |
| ExchangeStuck.IdleAgainIff | exchange/expair.go:83-101 | a pairing goroutine with messages to send can be idle again in some run exactly when its source's goroutine still runs or the source's queue has room for all of them |
| ExchangeStuck.ProceedsIff | exchange/expair.go:162-170 | it can make any progress at all exactly when the source still runs or the queue has room for one |
| ExchangeStuck.DoomedForGood | exchange/expair.go:172-199 | otherwise it is never idle again: registry and waiting lists are the same after every run |
| ExchangeStuck.StuckRunSticks | exchange/expair.go:314-334 | a source accepted, its queue filled, its goroutine quit, then a sink asking for its key: that run is possible and blocks the pairing goroutine for good |
| ExchangeLaws.EntersIff | exchange/expair.go:162-170 | a registration is put in a source's queue by the pairing goroutine's forwarding step and by nothing else |
| Exchange.WrappedIsLong | exchange/expair.go:247-266 | metadata found to be wrapped, by an AMF0 or an AMF3 string, has the 16 bytes that are cut off |
| ExchangeObjects.SourceObject.WriteData | exchange/expair.go:222-236 | each connected sink is offered the message once; those without room leave the map being ranged over |
| ExchangeObjects.SourceObject.OfferOne | exchange/expair.go:238-245 | the non-blocking put succeeds exactly when the channel has room |
| ExchangeObjects.SourceObject.HandleRtmpMessage | exchange/expair.go:201-220 | configurations kept; the message, as ExchangePassing.PassesOn says, offered to every connected sink and added to the history |
| ExchangeObjects.SourceObject.ConnectSink | exchange/expair.go:409-458 | the sink joins with the prelude, and a second connection is refused where the program panics |
| ExchangeObjects.SourceObject.DeleteSink | exchange/expair.go:460-475 | the sink, if connected, is cancelled and removed |
| ExchangeObjects.SourceObject.CancelSinks | exchange/expair.go:477-481 | every connected sink, and no other, is cancelled |
| ExchangeObjects.ConnPool.HandleRegisterSource | exchange/expair.go:140-170 | accepted exactly when the key is free; the waiting list is emptied and each of its sinks notified exactly once |
| ExchangeObjects.ConnPool.AddObserver | exchange/expair.go:336-350 | the sink joins its key's list unless it is there already |
| ExchangeObjects.ConnPool.DeleteObserver | exchange/expair.go:373-384 | the sink leaves its key's list, and the list goes with its last sink |
| Fmp4Laws.AddFrameOk | container/mp4/fmp4.go:782-816 | run size, sample count, sample sizes, buffer and offset keep describing the same frames |
| Fmp4Laws.ClosedMoofWf | container/mp4/fmp4.go:687-767 | every node of a closed moof declares its serialized length |
| Fmp4Laws.FragmentInFile | container/mp4/fmp4.go:818-838 | a closed fragment extends the file by its moof and then its media data |
| Fmp4Layout.DataInFile | container/mp4/fmp4.go:818-838 | in the file of every run the media data of fragment i lies whole, 8 bytes after its moof |
| Fmp4Layout.RunFromNew | container/mp4/fmp4.go:91-130 | every run from a new muxer, whatever its header, track ids and segment length, keeps what the layout theorems need |
| Fmp4Layout.LaidOutIff | container/mp4/fmp4.go:633-685 | in the file of every run, base offset plus data offset of both runs of fragment i is where their track's bytes are exactly when the media data since its segment began is a multiple of 4 GiB |
| Fmp4Layout.VideoFramesInFile | container/mp4/fmp4.go:687-728 | in such a fragment the file holds video frame j at the place and of the size the sample table gives |
| Fmp4Layout.AudioFramesInFile | container/mp4/fmp4.go:730-767 | and audio frame j four bytes further on for every non-empty frame up to it |
| Fmp4Layout.FirstFragmentIsPlaced | container/mp4/fmp4.go:591-631 | the first fragment of every segment is laid out right |
| Fmp4Layout.RunLays | container/mp4/fmp4.go:577-631 | every run keeps what these rest on: data, sample tables and offsets of each fragment, and the track offset it was opened with |
| Fmp4Layout.VideoConserved | container/mp4/fmp4.go:782-816 | every video byte fed is in one fragment or still cached, once and in order |
| Fmp4Segments.FragmentsAreStretches | container/mp4/fmp4.go:591-631 | the finished file of every run has one fragment for each stretch of input between key frames that held video, in order, with that stretch's frames; each track fragment carries its track's id, the key frame's timestamp as decode time, 1024 or the truncated mean frame time as duration, and the fixed flags; the sequence number is 1 in every one |
| Fmp4Segments.TrafSays | container/mp4/fmp4.go:687-767 | the boxes of one track fragment, field by field |
| Fmp4Segments.FeedFollows | container/mp4/fmp4.go:782-816 | every input keeps caches, decode times and key frame count in step with the stretches |
| Fmp4Run.RunOk | container/mp4/fmp4.go:591-631 | over every run the running base offset is the length of the file so far and every track fragment's base offset is where its moof is written |
| Fmp4Run.MoofAtItsBase | container/mp4/fmp4.go:384-427 | each moof of the file is found whole at that offset and parses back as the tree that was built |
| Fmp4Layout.NextFragmentIsMisplaced | container/mp4/fmp4.go:633-685 | in the file of every run, a fragment after one that is laid out right in the same segment is laid out wrong |
| Fmp4Layout.MisplacedRun | container/mp4/fmp4.go:591-631 | three key frames with audio between them, from a new muxer: the run goes through, and both runs of its second fragment start elsewhere than they say |
| Fmp4Run.CrashIff | container/mp4/fmp4.go:591-631 | a key frame crashes the muxer exactly when it closes a fragment that no key frame opened or that holds no audio |
| Fmp4Object.Fmp4.AddFrame | container/mp4/fmp4.go:782-816 | addFrame updates a track's cache as described, for both tracks |
| Fmp4Object.Fmp4.AddAudioFrameWithoutLen | container/mp4/fmp4.go:577-589 | refused without an audio track, otherwise cached, and nothing else changes |
| Fmp4Object.Fmp4.AddVideoFrameWithLen | container/mp4/fmp4.go:591-631 | outcome and whole new state, closing the fragment before a key frame |
| Fmp4Object.Fmp4.GenerateTracks | container/mp4/fmp4.go:687-767 | the two tracks' boxes, sizes, offsets and data, the smaller track id first; Fmp4Segments.TrafSays gives their fields |
| Fmp4Object.Fmp4.GenerateOneFrag | container/mp4/fmp4.go:633-685 | fails exactly where a missing run or moof is dereferenced; otherwise the closed fragment, which Fmp4Segments.FragmentsAreStretches describes |
| Fmp4Object.Fmp4.ResetFrag | container/mp4/fmp4.go:403-427 | empty caches based at the current file length and a moof with only its header |
| Fmp4Object.Fmp4.WriteHeader | container/mp4/fmp4.go:384-401 | the header is written once, and caches without a base get its length |
| Fmp4Object.Fmp4.SerializeFile | container/mp4/fmp4.go:818-838 | the loop writes the header and each moof with its media data |
| Fmp4Object.MuxAll | container/mp4/fmp4.go:577-631 | a whole run of the object ends with the file the description names, laid out as above, and a base offset equal to its length |
| Fmp4Object.MuxFile | container/mp4/fmp4.go:577-631 | the file of a run from a new muxer object |
| Mp4Box.RoundTrip | container/mp4/commonContainer.go:24-79 | parsing any well-formed moof or traf tree returns the tree, reports exactly its bytes and leaves what follows |
| Mp4Box.AllBack | container/mp4/commonContainer.go:65-79 | the child loop stops exactly at the declared size |
| Mp4Bytes.BoxHeaderAt | container/mp4/box.go:275-301 | size and type of any box at their bytes, in both sizes |
| Mp4Bytes.TypesSpelled | container/mp4/box.go:120-166 | the box types are the four letters of their names |
| Mp4Bytes.MfhdAt | container/mp4/moofBox.go:122-136 | version, flags and sequence number at their bytes |
| Mp4Bytes.TfhdAt | container/mp4/moofBox.go:180-217 | track id and then whichever fields the flags name, each at its byte, for any flags |
| Mp4Bytes.TfdtAt | container/mp4/moofBox.go:309-326 | the decode time in 32 or 64 bits by version |
| Mp4Bytes.TrunAt | container/mp4/moofBox.go:366-407 | count, optional fields, and every field of every sample at its byte, for any flags |
| Mp4Bytes.MfhdRefused | container/mp4/moofBox.go:144-160 | versions and flags other than 0 are errors |
| Mp4Bytes.TfhdRefused | container/mp4/moofBox.go:225-240 | so are versions other than 0 |
| Mp4Bytes.TfdtRefused | container/mp4/moofBox.go:334-356 | and flags other than 0 |
| Mp4Bytes.HeadersRefused | container/mp4/box.go:237-255 | a box header cut short, or with a 64-bit size outside mdat, is an error |
| Mp4Box.TfhdBack | container/mp4/moofBox.go:180-279 | tfhd bodies with any flags |
| Mp4Box.TfdtBack | container/mp4/moofBox.go:309-356 | tfdt bodies in both versions |
| Mp4Box.TrunBack | container/mp4/moofBox.go:366-494 | trun bodies with any flags and any samples |
| Mp4Box.MfhdBack | container/mp4/moofBox.go:122-160 | mfhd bodies |
| Mp4Box.SamplesBack | container/mp4/moofBox.go:441-494 | any number of samples under any flags |
| Mp4Box.FullBack | container/mp4/box.go:174-211 | version and flags come back from a full box header |
| Mp4Box.HeaderBack | container/mp4/box.go:237-301 | type and 32-bit size come back from a box header |
| Mp4Box.WriteSamples | container/mp4/moofBox.go:366-407 | the loop writes each sample's present fields in order |
| Mp4Box.ReadChildren | container/mp4/commonContainer.go:65-79 | the child loop and its running totals; it ends because each child takes at least 8 bytes |
| BitReader.OrByte | utils/bitreader/bitreader.go:267-283 | or-ing a shifted byte into the buffer appends its bits below the ones there |
| BitReader.TakeTop | utils/bitreader/bitreader.go:293-308 | masking and shifting down gives the top n bits, zero-extended |
| BitReader.ShlTop | utils/bitreader/bitreader.go:310-329 | shifting left drops the consumed bits and keeps zeros below |
| BitReader.ByteSource.Read | utils/bitreader/bitreader.go:267-274 | a call gets as many of the next bytes as are asked for, answered with and there, and the answer's error |
| BitReader.Reader.Fill | utils/bitreader/bitreader.go:267-283 | takes in exactly the bytes one call for all the room gets, or none and that call's error; the buffer's top `remaining` bits stay the next stream bits and the rest zero |
| BitReader.Reader.Absorb | utils/bitreader/bitreader.go:267-283 | the loop that takes in the bytes read |
| BitReader.Reader.Peek | utils/bitreader/bitreader.go:293-308 | fills as often as the description says, then gives the next n bits of the stream; the refused unaligned request for more than 56 changes nothing |
| BitReader.Reader.SkipBits | utils/bitreader/bitreader.go:310-329 | consumes exactly n bits, or everything received when the source fails first, with the error of that failure |
| BitReader.NeedIff | utils/bitreader/bitreader.go:293-308 | looking n bits ahead succeeds exactly when the bytes offered before the first error, up to eight an answer and as far as there are any, make up the bits missing |
| BitReader.SkipIff | utils/bitreader/bitreader.go:310-329 | the same for skipping any number of bits |
| BitReader.ErrorsAre | utils/bitreader/bitreader.go:285-336 | what an operation fails with: the source's first error, an end of input inside a read or skip being unexpected, and nothing else but the refused look ahead |
| BitReader.Reader.ReadBits | utils/bitreader/bitreader.go:285-291 | the next n bits, consumed; on an error none are; success and error are those of the look ahead |
| BitReader.Reader.Align | utils/bitreader/bitreader.go:186-189 | moves to the next byte boundary of the stream and touches the source not at all |
| BitReader.Reader.Peek64 | utils/bitreader/bitreader.go:260-265 | the number those bits spell; refused exactly above 64, otherwise as the look ahead |
| BitReader.Reader.Read64 | utils/bitreader/bitreader.go:224-229 | the same, consumed |
| BitReader.Reader.Read8 | utils/bitreader/bitreader.go:199-206 | the same for at most 8 bits |
| BitReader.Reader.Read1 | utils/bitreader/bitreader.go:191-197 | the next bit exactly when looking one bit ahead succeeds; otherwise false, with nothing consumed and no error |
| BitReader.Reader.Read | utils/bitreader/bitreader.go:161-176 | the whole bytes in the buffer, up to the size wanted, and then all that one call for the others gets: exactly the next bytes of the stream from the next byte boundary, with that call's error |
| BitReader.PlainRunGrows | utils/bitreader/bitreader.go:267-329 | results of a plain bit list do not depend on input not yet reached |
| BitReader.RunSucceeds | utils/bitreader/bitreader.go:186-329 | a sequence of operations has no error when the bytes the source is sure to hand over, one for every answer that offers any before its first error, are enough for it on a plain bit list and it asks for nothing that is refused |
| BitReader.RunOps | utils/bitreader/bitreader.go:186-329 | any sequence of peek, read, skip and align, with any pattern of short reads: every result up to the first error is the plain bit list's, and under that condition all of them are, over the source's own data |
| BitReader.HalvesSpelled | utils/bitreader/bitreader.go:285-308 | the byte 0xA5 read four bits at a time is 10 and then 5 |
| Amf0.RoundTrip | utils/amf/amf0.go:519-579 | reading any written value, with anything after it, gives the value with arrays as decimal-keyed objects and leaves exactly the rest |
| Amf0.PropsRoundTrip | utils/amf/amf0.go:428-456 | the properties of an object come back under their names |
| Amf0.StringRoundTrip | utils/amf/amf0.go:26-65 | short and long strings come back, by their two encodings |
| Amf0.CountLaw | utils/amf/amf0.go:26-47 | for every value, the bytes written are the reported count and what 16-bit and 32-bit wrapping took off it |
| Amf0.CountExactIff | utils/amf/amf0.go:147-174 | the count is exact exactly when no name is over 65533 bytes and no string over 2^32 - 6 |
| Amf0.OrderDoesNotMatter | utils/amf/amf0.go:154-174 | the decoded object does not depend on the order its properties were written in |
| Amf0.IndicesFit | utils/amf/amf0.go:111-137 | array indices are distinct, non-empty decimal names that fit |
| AmfForms.Forms0 | utils/amf/amf0.go:18-174 | the bytes of null, booleans, numbers, short strings, an object and an array |
| AmfForms.Lengths0 | utils/amf/amf0.go:58-65 | the long string form, and an array's element count |
| AmfForms.Forms3 | utils/amf/amf3.go:33-106 | the bytes of AMF3 scalars, strings and byte arrays |
| AmfForms.Object3 | utils/amf/amf3.go:125-157 | the bytes of an AMF3 object |
| AmfForms.Array3 | utils/amf/amf3.go:205-240 | the bytes of an AMF3 array |
| AmfForms.FormsU29 | utils/amf/amf3.go:15-31 | the bytes at both ends of each U29 length |
| AmfForms.StrictArrayRead | utils/amf/amf0.go:466-484 | a strict array of written values comes back element by element |
| AmfForms.OthersRead | utils/amf/amf0.go:497-579 | undefined and dates |
| AmfForms.Amf3Inside | utils/amf/amf0.go:519-579 | an AMF3 value inside AMF0 |
| AmfForms.Others3Read | utils/amf/amf3.go:340-349 | AMF3 undefined and integers |
| AmfForms.MarkersRefused | utils/amf/amf0.go:519-579 | no other marker is read |
| AmfForms.CutStringPads | utils/amf/amf0.go:355-370 | a string cut short is read, with zeros for what is missing |
| AmfForms.CutString3Pads | utils/amf/amf3.go:306-327 | the same in AMF3 |
| AmfForms.CutNumberRefused | utils/amf/amf0.go:389-399 | a number cut short is refused |
| AmfForms.RepeatedNameRefused | utils/amf/amf0.go:428-456 | an object that names a property twice is refused |
| Amf0.SiblingsRoundTrip | utils/amf/amftools.go:20-55 | a command's arguments come back one by one, a flat name/value list as one object |
| Amf0.ArgumentsReadBack | utils/amf/amftools.go:20-55 | the bytes written for a command's arguments read back one by one: a flat list as an object with exactly the names in its even places, each with the value next to it; anything else as itself |
| Amf0.WriteProps | utils/amf/amf0.go:154-174 | the writing loop and its running count |
| Amf0.WriteValue | utils/amf/amf0.go:224-334 | bytes and reported count of any value, names and strings of any length included, and arrays as far as their length as an int32 goes |
| Amf0.ReadObjectProperty | utils/amf/amf0.go:428-456 | the loop that fills the map, refusing repeated names |
| Amf0.WriteSiblings | utils/amf/amftools.go:20-55 | fails exactly when a list is odd or a name is no string, where the program panics; otherwise bytes that read back as Amf0.ArgumentsReadBack says |
| Amf3.U29RoundTrip | utils/amf/amf3.go:287-304 | decoding undoes encoding for every n up to 0x1FFFFFFF and leaves what follows |
| Amf3.PutU29 | utils/amf/amf3.go:15-31 | defined exactly up to 0x1FFFFFFF, in the fewest bytes |
| Amf3.ReadU29 | utils/amf/amf3.go:287-304 | the reading loop, whose result never exceeds 0x1FFFFFFF |
| Amf3.RoundTrip | utils/amf/amf3.go:447-478 | reading undoes writing for every nested value, whatever follows |
| Amf3.PropsRoundTrip | utils/amf/amf3.go:378-414 | the properties of an object come back under their names |
| Amf3.Utf8RoundTrip | utils/amf/amf3.go:306-327 | inline strings come back |
| Amf3.EmptyBlobReadsIff | utils/amf/amf3.go:427-445 | an empty byte array reads back exactly when something follows |
| Amf3.WriteU29 | utils/amf/amf3.go:15-31 | bytes and reported count, or the out-of-range error |
| Amf3.WriteUtf8 | utils/amf/amf3.go:46-66 | the same for inline strings of any length |
| Amf3.WriteValue | utils/amf/amf3.go:159-273 | an error exactly when some length is out of range, otherwise the bytes, arrays included; the count added up from the writers' own reports is their number |
| Amf3.WriteProps | utils/amf/amf3.go:125-157 | the same for the loop over an object's properties |
| Amf3.ReadObjectProperty | utils/amf/amf3.go:378-414 | the loop that fills the map |
| RtmpClient.StepFollows | protocol/rtmp/clientHandler.go:146-168 | every message: the status does not go back, fits the role, no role-mismatch error, what has been sent is a prefix of the role's script with its transaction ids, and the stream id is what a createStream response sets it to and otherwise as before |
| RtmpClient.ReadsWithLastSize | protocol/rtmp/clientHandler.go:174-187 | in every run the client reads chunks of the last size announced to it, or 128 |
| RtmpClientWire.ClientAndUnpackerAgree | protocol/rtmp/clientHandler.go:97-118 | a client that reads its messages off the wire has the chunk size its unpacker reads with |
| RtmpClient.StepReads | protocol/rtmp/clientHandler.go:146-187 | after each message, the chunk size from its first four bytes if it is a set-chunk-size message long enough for them, else as before; and exactly what the client panics on |
| RtmpClient.RunFollows | protocol/rtmp/clientHandler.go:219-357 | the same between any two points of every run; once past createStream the stream id is fixed |
| RtmpClient.StatusTellsHistory | protocol/rtmp/clientHandler.go:189-217 | a status implies the responses before it, in order: publish_success after accepted connect, createStream and publish; play_start after connect, createStream, StreamBegin and start; with the stream id of the createStream response |
| RtmpClient.PublisherGoesOnIff | protocol/rtmp/clientHandler.go:219-357 | a publisher goes on exactly when no message is harmful and its commands are the three answers in order, undefined createStream answers allowed before the real one |
| RtmpClient.PublishSuccessIff | protocol/rtmp/clientHandler.go:336-346 | a publisher is publishing exactly when some start of its input brought the three answers, and its stream id is the one answered |
| RtmpPlay.PlayerGoesOnIff | protocol/rtmp/clientHandler.go:189-217 | a player goes on exactly when its messages are along a path of milestones (connect, createStream, perhaps StreamIsRecorded, StreamBegin, first command, start), which tells its status |
| RtmpPlay.PlayStartIff | protocol/rtmp/clientHandler.go:311-335 | a player is playing exactly when some start of its input went along such a path to its end, and its stream id is the one answered |
| RtmpClient.AfterConnectSends | protocol/rtmp/clientHandler.go:226-266 | the calls after connect and their transaction ids, by role |
| RtmpClient.AfterCreateSends | protocol/rtmp/clientHandler.go:279-310 | the calls after createStream and their transaction ids, by role |
| RtmpClientObject.RtmpClientHandler.HandleProtocolControl | protocol/rtmp/clientHandler.go:174-187 | the unpacker's chunk size becomes the number in the first four bytes of a set-chunk-size message, which panics when shorter |
| RtmpClientObject.RtmpClientHandler.HandleUserControl | protocol/rtmp/clientHandler.go:189-217 | StreamBegin and StreamIsRecorded move the status from the states they are allowed in |
| RtmpClientObject.RtmpClientHandler.HandleCommand | protocol/rtmp/clientHandler.go:219-357 | the command switch, including the states left behind when a write fails |
| RtmpClientObject.RtmpClientHandler.HandleReceiveMessage | protocol/rtmp/clientHandler.go:146-168 | dispatch by message type; media without a player panics |
| RtmpClientObject.RtmpClientHandler.Negotiate | protocol/rtmp/clientHandler.go:97-118 | the reading loop reports success exactly when some start of the input reaches publish_success, and stops there |
| RtmpClientObject.StopsForGood | protocol/rtmp/clientHandler.go:97-118 | a client stopped by an unhandled message never publishes, whatever follows |

## Left out

- Network, TLS, the accept loop, the command-line applications and the server handler: input and output around the parts modelled.
- The RTMP handshake: it rests on HMAC and random bytes.
- Liveness under a fair scheduler: `ExchangePassing` says what each handler does and what sources
  pass on, `ExchangeStuck` when the pairing goroutine can go on, not that it eventually does.
- RTMP chunks of one message share one header object; the model keeps one header per message. `MessageStream.Format` and `chunkStreamID`, which are written and never read, are omitted.
- RtmpRun.RoundTrip: needs messages whose first header mirrors, which `RtmpChunk.HeaderMirrorsIff` shows to be the exact header condition; timestamps above 0xffffff mostly do not meet it.
- RtmpInterleave.AnyInterleaving: full headers first and continuation headers after, with timestamps up to 0xffffff; compressed headers are covered by the sequential theorem only.
- ExchangeObjects.ConnPool.HandleRegisterSource: the pairing goroutine's map is private to it, so the waiting list is removed at the start of the notification.
- Exchange: a sink is identified by its registration; the goroutine that drains a sink's channel is one consuming step; `avMetaData` is never assigned and not modelled; `at`, `log` and `handled` are history.
- The GOP cache and `exchange/datacache.go`: unfinished or not part of this model.
- BitReader: a 64-bit word is 64 booleans. `stream` is what was received without error: bytes delivered together with an error are dropped by `fill`, as in the code. The 16- and 32-bit variants only differ in the bound they refuse.
- AMF numbers are opaque 8-byte values; dates, struct reflection and the `undefined` writers are not modelled. AMF3 arrays are written by the program in a form its reader refuses, and are outside the AMF3 round trip. The round trips are for names and strings the length fields can hold; the writers are modelled for all.
- Fmp4Run.RunOk: two tracks with distinct ids, set before the first frame, and no closed fragment of 4 GiB or more.
- Fmp4Layout.LaidOutIff: files below 2^64 bytes and fragments with frames on both tracks; without an audio track the program writes no track fragment at all, which the model follows and no theorem covers.
- A fragment keeps, as history, the track offset it was opened with, whether it ended its segment, and its frames. Media data is that of the moment a fragment is closed: the program's mdat box shares a buffer that is reset later. Runs are held by value where the program shares a pointer.
- The file header is opaque bytes; the other box types of the parser table are not modelled.
- Mp4Box.RoundTrip: box sizes below 2^32, fields whose flag is off are zero.
- The content checks of RTMP responses are abstract verdicts (accept, reject, panic, and the stream id they extract), and a received message carries how many of the writes it provokes succeed.
- Client: `Cancel`, the sending loop after publish_success and its send failure state are not modelled.

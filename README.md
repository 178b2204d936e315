# RxSwiftMidi input path, modelled in Dafny

RxSwiftMidi turns CoreMIDI input into an RxSwift stream of note events.
This project models the part of it with logic of its own:

- the packet decoder (`MIDIPacket.toMidiInputData` and
  `MidiInputEventType.from(statusByte:)`), which accepts only three-byte Note On
  (status 9n hex) and Note Off (status 8n hex) messages as laid out in the MIDI
  1.0 Detailed Specification, taking the channel from the low nibble and the
  note and velocity from the two data bytes;
- `readInputPacketList`, the loop that walks a `MIDIPacketList`, decodes each
  packet and collects the decoded ones, tagged with the port name and source id;
- the subscribe closure of `getInputStream`: find the source, create an input
  port whose read block forwards decoded events, connect it, and hand back a
  disposable that disconnects and disposes the port;
- the value types of `MidiInput.swift`, the note name of a note number, and the
  stream operators `channel(_:)`, `type(_:)` and `notes()`.

Files:

- `wrappers.dfy` — `Option`, Swift's optional.
- `seq_ops.dfy` — `Filter`, `Map`, `Count` and subsequence over finite
  sequences: the RxSwift `filter` and `map` operators on the events a stream emits.
- `decimal.dfy` — decimal text of an `Int` as Swift's string interpolation
  writes it, and its parser.
- `midi_input.dfy` — module `MidiInput`: event types, `Note`, the operators.
- `midi_manager.dfy` — module `MidiManager`: decoder, packet-list reader,
  subscription setup and teardown.

Modelling choices:

- `UInt8` is `bv8`, so `>> 4`, `& 0x0F`, `/ 12` and `% 12` are Swift's
  unsigned byte operations exactly. `Int32`, `UInt16` and `UInt32` are integer
  subset types.
- The Swift field `type` of `MidiInputData` is named `eventType`, `type` being
  a Dafny keyword. The event field keeps its Swift name `destinationId`, though
  it carries the source id.
- A stream is the finite sequence of events it emits; `channel`, `type` and
  `notes` are `Filter`/`Map` over that sequence.
- A packet list is `numPackets` plus the sequence of its packets;
  `MIDIPacketNext` is the step to the next element.
- CoreMIDI is not modelled. `CoreMidi` holds each call's status and the value
  its out-parameter holds afterwards; `Subscribe` returns the errors sent to the
  observer, the CoreMIDI calls it made (`MidiCall`), and the disposable, whose
  `Dispose()` lists the calls teardown makes.
- The UUID behind a generated port name is a parameter.
- The two reference definitions are `EncodePacket`, the Note On / Note Off
  message layout of the MIDI 1.0 Detailed Specification, against which the
  decoder is proved in both directions, and `NoteNumber`, the parser of note
  names, which `NoteRoundTrip` proves undoes `Note`.

Two behaviours of the code are kept as written. After a failed port
creation, `getInputStream` does not stop: it still calls
`MIDIPortConnectSource` with whatever `port` then holds, may send a second
error (`couldNotConnectPortToSource`), and returns the full teardown, which
disconnects and disposes that `port` value. And `noteValue` and `velocity`
are copied from the data bytes as they are; nothing checks that they are
7-bit values.

## Model

| member | source | states |
|---|---|---|
| `MidiManager.FromStatusByte` | Sources/RxSwiftMidi/MidiManager.swift:115-120 | `on` exactly for status bytes 0x90-0x9F (high nibble 1001), `off` exactly for 0x80-0x8F (high nibble 1000), nil for the other fourteen high nibbles |
| `MidiManager.ToMidiInputData` | Sources/RxSwiftMidi/MidiManager.swift:125-144 | nil whenever the length is not 3, whatever the bytes; decodes exactly when the length is 3 and the status is 0x80-0x9F; on success the type follows the high nibble, the channel is the status byte mod 16 (so below 16), note and velocity are data bytes 1 and 2 unchanged |
| `MidiManager.DecodeEncode` | Sources/RxSwiftMidi/MidiManager.swift:127-144 | every Note On / Note Off message on a channel 0-15 decodes to exactly the data it encodes |
| `MidiManager.EncodeDecode` | Sources/RxSwiftMidi/MidiManager.swift:127-144 | every packet that decodes is the MIDI encoding of its result: the decoder accepts nothing else and loses nothing |
| `MidiManager.DecodedEvents` | Sources/RxSwiftMidi/MidiManager.swift:96-104 | the events of a packet sequence are at most one per packet and all carry the given port name and source id |
| `MidiManager.DecodedEventsAppend` | Sources/RxSwiftMidi/MidiManager.swift:98-103 | the events of a concatenation are those of the first part followed by those of the second: packet order is kept |
| `MidiManager.DecodedEventsLength` | Sources/RxSwiftMidi/MidiManager.swift:99-101 | one event per decodable packet; undecodable packets are dropped |
| `MidiManager.DecodedEventsFromPackets` | Sources/RxSwiftMidi/MidiManager.swift:99-100 | every event carries the decoded data of some packet of the list |
| `MidiManager.ReadInputPacketList` | Sources/RxSwiftMidi/MidiManager.swift:90-105 | requires a readable list: at least one packet (the closed range `1...numPackets` traps on 0) and `numPackets` packets; the returned array is the decoded events of the packets in order, as `DecodedEvents` gives them |
| `MidiManager.PortName` | Sources/RxSwiftMidi/MidiManager.swift:42 | a supplied name is returned verbatim; without one the name is the generated-name prefix followed by the UUID string, which can be read back from it |
| `MidiManager.Disposable.Dispose` | Sources/RxSwiftMidi/MidiManager.swift:67-70 | the empty disposable makes no call; the teardown makes two calls, disconnecting the port from the source first and disposing the port last, and names no port after disposing it |
| `MidiManager.GetInputStream` | Sources/RxSwiftMidi/MidiManager.swift:41-43 | the stream keeps the source id; a supplied name is the port name verbatim, a missing one gives a name starting with the generated-name prefix, fixed once per call |
| `MidiManager.GeneratedPortNamesDiffer` | Sources/RxSwiftMidi/MidiManager.swift:42 | generated port names from distinct UUIDs are distinct |
| `MidiManager.ReadBlock.Forwarded` | Sources/RxSwiftMidi/MidiManager.swift:52-56 | what the port's read block sends to the observer for one non-empty packet list (an empty one traps in `readInputPacketList`): one event per decodable packet, at most `numPackets`, each tagged with the block's port name and source id |
| `MidiManager.Subscribe` | Sources/RxSwiftMidi/MidiManager.swift:43-71 | the first call looks the source id up; `unknownSource` is sent exactly when the lookup fails or the object is not a source, and then it is the only error, no port creation or connection is attempted and the disposable does nothing; otherwise a port named after the stream is created with a read block that forwards, for every non-empty packet list (an empty one traps in `readInputPacketList`), exactly the decoded events tagged with the stream's port name and source id; the connect is attempted even if creation failed; errors are `couldNotCreatePort` then `couldNotConnectPortToSource` exactly for the failed calls; teardown disconnects then disposes the `port` value whether or not creation succeeded; over the whole trace no port is used after its disposal, every attempted connection is undone before its port is disposed, and `MIDIPortDispose` is called exactly as many times (0 or 1) as a port creation was attempted |
| `MidiManager.FullSetupTraceIsReleased` | Sources/RxSwiftMidi/MidiManager.swift:59-70 | a setup that attempted to create and connect a port, followed by the teardown closure's calls, never uses the port after disposing it, disconnects before disposing, and disposes exactly once |
| `MidiInput.MidiInputData.Note` | Sources/RxSwiftMidi/MidiInput.swift:16-28 | defined as the pitch-class name at `noteValue % 12` in the 12-entry table (an index Dafny checks is always inside the table) followed by the decimal octave `noteValue / 12 - 1`; ensured: the name has at least two characters; its meaning is carried by `NoteRoundTrip` and `NoteExamples` |
| `MidiInput.PitchClassOfName` | Sources/RxSwiftMidi/MidiInput.swift:16 | the twelve pitch-class names are distinct: each one reads back as its own index |
| `MidiInput.NoteRoundTrip` | Sources/RxSwiftMidi/MidiInput.swift:23-28 | reading the name back gives the note number: distinct notes get distinct names |
| `MidiInput.NoteExamples` | Sources/RxSwiftMidi/MidiInput.swift:25-27 | notes 60, 61, 69 and 0 are named "C4", "C#4", "A4" and "C-1" |
| `MidiInput.Channel` | Sources/RxSwiftMidi/MidiInput.swift:42-46 | keeps exactly the events on the given channel, as many as the input has on that channel, never lengthening the stream |
| `MidiInput.Type` | Sources/RxSwiftMidi/MidiInput.swift:48-52 | keeps exactly the events of the given type, as many as the input has of that type, never lengthening the stream |
| `MidiInput.ChannelIsSubsequence` | Sources/RxSwiftMidi/MidiInput.swift:42-46 | the channel filter's result is a subsequence of its input: relative order kept |
| `MidiInput.TypeIsSubsequence` | Sources/RxSwiftMidi/MidiInput.swift:48-52 | the type filter's result is a subsequence of its input |
| `MidiInput.ChannelAppend` | Sources/RxSwiftMidi/MidiInput.swift:42-46 | filtering by channel distributes over concatenation of stream segments |
| `MidiInput.TypeAppend` | Sources/RxSwiftMidi/MidiInput.swift:48-52 | filtering by type distributes over concatenation of stream segments |
| `MidiInput.ChannelIdempotent` | Sources/RxSwiftMidi/MidiInput.swift:42-46 | `channel(c)` twice equals once |
| `MidiInput.TypeIdempotent` | Sources/RxSwiftMidi/MidiInput.swift:48-52 | `type(t)` twice equals once |
| `MidiInput.ChannelTypeCommute` | Sources/RxSwiftMidi/MidiInput.swift:42-52 | `channel(c)` and `type(t)` commute |
| `MidiInput.ChannelOfSingleChannel` | Sources/RxSwiftMidi/MidiInput.swift:43-45 | a stream all on channel c passes `channel(c)` unchanged |
| `MidiInput.ChannelExample` | Sources/RxSwiftMidi/MidiInput.swift:42-46 | channels 5, 5, 3, 5 filtered by 5 give the three channel-5 events in order |
| `MidiInput.Notes` | Sources/RxSwiftMidi/MidiInput.swift:54-58 | defined as `Note` mapped over `Type(events, On)`, so the names of the `on` events in stream order; ensured: exactly one name per `on` event (the count of `on` events, never more than the stream's length), each at least two characters |
| `MidiInput.NotesAppendEvent` | Sources/RxSwiftMidi/MidiInput.swift:54-58 | an `on` event appends its note name, an `off` event contributes nothing |
| `MidiInput.NotesExample` | Sources/RxSwiftMidi/MidiInput.swift:54-58 | on 60, off 60, on 62 gives ["C4", "D4"] |

## Left out

- `ReadBlock.Forwarded`: an empty packet list is outside its precondition; in the code the read block's call to `readInputPacketList` traps on it, and the model does not represent the trap.

- `listSources`, `getMIDIObjectId` and `getMIDIObjectName` (CoreMIDI property queries) are not part of this model.
- Client creation and disposal in `init?` and `deinit` are foreign CoreMIDI calls with only a status check; the client reference is a parameter of `Subscribe`.
- CoreMIDI calls are not executed; their statuses and out-parameter values are inputs (`CoreMidi`).
- UUID generation is nondeterministic; the UUID string is a parameter of `GetInputStream`.
- Concurrency: the read block runs on a CoreMIDI thread; which packet lists arrive, and when relative to setup or teardown, is not modelled. The read block is recorded by the tags it puts on events, and `ReadBlock.Forwarded` gives what it sends for one packet list.
- RxSwift semantics (events after an error, a second `onError` being ignored, `forEach`/`onNext` delivery) belong to the library, not this code.
- `ReadInputPacketList`: on the last iteration `readInputPacketList` calls `MIDIPacketNext` once more and reads past the last packet; that value is never used, and the model does not read it.
- `ReadInputPacketList`: the model assumes each `MIDIPacketNext` reaches the next packet of the list. `readInputPacketList` copies the list and its first packet into local variables and steps from that local copy, so for packets lying beyond the copied data window the Swift code may read memory outside the list; that pointer arithmetic is not modelled.
- A packet's time stamp and data bytes beyond the third are not read by the decoder and are not modelled.

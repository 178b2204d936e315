/**
 * The CoreMIDI side of the input stream: decoding one packet, reading a
 * packet list, and the setup and teardown a subscription performs.
 * CoreMIDI itself is not modelled: each call's answer is an input (CoreMidi)
 * and the calls made are returned as a trace of MidiCall values.
 */
module MidiManager {
  import opened Wrappers
  import opened SeqOps
  import opened MidiInput

  /** Swift's `UInt16`, the type of MIDIPacket.length. */
  type UInt16 = x: int | 0 <= x < 0x1_0000

  /** Swift's `UInt32`: MIDIPacketList.numPackets and the CoreMIDI object references. */
  type UInt32 = x: int | 0 <= x < 0x1_0000_0000

  /** MIDIObjectRef, MIDIPortRef and MIDIClientRef. */
  type ObjectRef = UInt32

  /** CoreMIDI's status code; 0 is noErr. */
  type OSStatus = Int32

  const NoErr: OSStatus := 0

  // ----- Decoding one packet ------------------------------------------------

  /** A MIDIPacket as the decoder reads it: the advertised length and data bytes 0, 1 and 2. */
  datatype MidiPacket = MidiPacket(length: UInt16, status: UInt8, data1: UInt8, data2: UInt8)

  const ExpectedPacketLength: UInt16 := 3

  /** The event type named by the high nibble of a status byte. */
  function FromStatusByte(statusByte: UInt8): (r: Option<MidiInputEventType>)
    ensures r == Some(On) <==> 0x90 <= statusByte <= 0x9F
    ensures r == Some(Off) <==> 0x80 <= statusByte <= 0x8F
    ensures r == None <==> statusByte < 0x80 || 0xA0 <= statusByte
  {
    var nibble := statusByte >> 4;
    if nibble == 0x9 then Some(On)
    else if nibble == 0x8 then Some(Off)
    else None
  }

  /** Only three-byte Note On and Note Off messages decode; everything else is dropped. */
  function ToMidiInputData(packet: MidiPacket): (r: Option<MidiInputData>)
    ensures packet.length != 3 ==> r == None
    ensures r.Some? <==> packet.length == 3 && 0x80 <= packet.status <= 0x9F
    ensures r.Some? ==> r.value.channel < 16 && r.value.channel as int == packet.status as int % 16
    ensures r.Some? ==> (r.value.eventType == On <==> packet.status as int / 16 == 9)
    ensures r.Some? ==> r.value.noteValue == packet.data1 && r.value.velocity == packet.data2
  {
    if packet.length != ExpectedPacketLength then None
    else
      var status, note, velocity := packet.status, packet.data1, packet.data2;
      match FromStatusByte(status)
      case None => None
      case Some(eventType) =>
        var channel := status & 0x0F;
        Some(MidiInputData(eventType, channel, note, velocity))
  }

  /**
   * The three-byte channel voice message of the MIDI 1.0 Detailed
   * Specification for a Note On (status 9n hex) or Note Off (status 8n hex)
   * on channel n: the reference the decoder is checked against.
   */
  function EncodePacket(data: MidiInputData): MidiPacket
    requires data.channel < 16
  {
    var high: UInt8 := if data.eventType == On then 0x90 else 0x80;
    MidiPacket(3, high | data.channel, data.noteValue, data.velocity)
  }

  /** Every Note On / Note Off message decodes to the data it encodes. */
  lemma DecodeEncode(data: MidiInputData)
    requires data.channel < 16
    ensures ToMidiInputData(EncodePacket(data)) == Some(data)
  {
  }

  /** Every packet that decodes is the encoding of what it decodes to. */
  lemma EncodeDecode(packet: MidiPacket)
    requires ToMidiInputData(packet).Some?
    ensures ToMidiInputData(packet).value.channel < 16
    ensures EncodePacket(ToMidiInputData(packet).value) == packet
  {
  }

  // ----- Reading a packet list ----------------------------------------------

  /** A MIDIPacketList: MIDIPacketNext is the step to the next element of `packets`. */
  datatype MidiPacketList = MidiPacketList(numPackets: UInt32, packets: seq<MidiPacket>)

  predicate Decodes(packet: MidiPacket)
  {
    ToMidiInputData(packet).Some?
  }

  /** The events a list of packets yields: decodable packets in order, tagged with port and source. */
  function DecodedEvents(packets: seq<MidiPacket>, portName: string, destinationId: Int32): (r: seq<MidiInputEvent>)
    ensures |r| <= |packets|
    ensures forall i :: 0 <= i < |r| ==> r[i].portName == portName && r[i].destinationId == destinationId
  {
    if packets == [] then []
    else
      var n := |packets| - 1;
      DecodedEvents(packets[..n], portName, destinationId)
        + match ToMidiInputData(packets[n])
          case None => []
          case Some(data) => [MidiInputEvent(portName, destinationId, data)]
  }

  /** Decoding a concatenation decodes each part: packet order is kept. */
  lemma {:induction false} DecodedEventsAppend(a: seq<MidiPacket>, b: seq<MidiPacket>, portName: string, destinationId: Int32)
    ensures DecodedEvents(a + b, portName, destinationId)
         == DecodedEvents(a, portName, destinationId) + DecodedEvents(b, portName, destinationId)
    decreases |b|
  {
    if b == [] {
      assert a + b == a;
    } else {
      var n := |b| - 1;
      assert (a + b)[..|a + b| - 1] == a + b[..n];
      DecodedEventsAppend(a, b[..n], portName, destinationId);
    }
  }

  /** Exactly one event per decodable packet. */
  lemma {:induction false} DecodedEventsLength(packets: seq<MidiPacket>, portName: string, destinationId: Int32)
    ensures |DecodedEvents(packets, portName, destinationId)| == Count(packets, Decodes)
  {
    if packets != [] {
      DecodedEventsAppend([packets[0]], packets[1..], portName, destinationId);
      assert [packets[0]] + packets[1..] == packets;
      assert [packets[0]][..0] == [];
      DecodedEventsLength(packets[1..], portName, destinationId);
    }
  }

  /** Each event carries the data of one packet of the list. */
  lemma {:induction false} DecodedEventsFromPackets(packets: seq<MidiPacket>, portName: string, destinationId: Int32, i: nat)
    requires i < |DecodedEvents(packets, portName, destinationId)|
    ensures exists j :: 0 <= j < |packets| && ToMidiInputData(packets[j]) == Some(DecodedEvents(packets, portName, destinationId)[i].data)
  {
    var n := |packets| - 1;
    var init := DecodedEvents(packets[..n], portName, destinationId);
    if i < |init| {
      DecodedEventsFromPackets(packets[..n], portName, destinationId, i);
      var j :| 0 <= j < n && ToMidiInputData(packets[..n][j]) == Some(init[i].data);
      assert packets[..n][j] == packets[j];
    } else {
      assert ToMidiInputData(packets[n]).Some?;
    }
  }

  /**
   * A packet list readInputPacketList can walk: non-empty, since the closed
   * range `1...numPackets` traps when numPackets is 0, and holding numPackets
   * packets, the shape CoreMIDI gives every packet list.
   */
  predicate Readable(list: MidiPacketList)
  {
    list.numPackets >= 1 && |list.packets| == list.numPackets
  }

  /** readInputPacketList: the decoded events of the list's packets, in order. */
  method ReadInputPacketList(packetList: MidiPacketList, portName: string, destinationId: Int32)
    returns (events: seq<MidiInputEvent>)
    requires Readable(packetList)
    ensures events == DecodedEvents(packetList.packets, portName, destinationId)
  {
    var packets := packetList.packets;
    events := [];
    var packet := packets[0];
    for i := 0 to packetList.numPackets
      invariant i < |packets| ==> packet == packets[i]
      invariant events == DecodedEvents(packets[..i], portName, destinationId)
    {
      assert packets[..i + 1][..i] == packets[..i];
      var data := ToMidiInputData(packet);
      if data.Some? {
        events := events + [MidiInputEvent(portName, destinationId, data.value)];
      }
      // readInputPacketList also steps past the last packet; that value is never read.
      if i + 1 < packetList.numPackets {
        packet := packets[i + 1];
      }
    }
    assert packets[..packetList.numPackets] == packets;
  }

  // ----- Subscribing to an input stream -------------------------------------

  datatype MidiObjectType =
    | Other | Device | Entity | Source | Destination
    | ExternalDevice | ExternalEntity | ExternalSource | ExternalDestination

  /** The read block given to a new input port, identified by the tags it puts on events. */
  datatype ReadBlock = ReadBlock(portName: string, destinationId: Int32)
  {
    /** The events the block sends to the observer, in order, for one packet list CoreMIDI delivers. */
    function Forwarded(list: MidiPacketList): (r: seq<MidiInputEvent>)
      requires Readable(list)
      ensures |r| == Count(list.packets, Decodes) <= list.numPackets
      ensures forall i :: 0 <= i < |r| ==> r[i].portName == portName && r[i].destinationId == destinationId
    {
      DecodedEventsLength(list.packets, portName, destinationId);
      DecodedEvents(list.packets, portName, destinationId)
    }
  }

  /** The CoreMIDI calls a subscription makes. */
  datatype MidiCall =
    | ObjectFindByUniqueId(uniqueId: Int32)
    | InputPortCreate(client: ObjectRef, portName: string, readBlock: ReadBlock)
    | PortConnectSource(port: ObjectRef, source: ObjectRef)
    | PortDisconnectSource(port: ObjectRef, source: ObjectRef)
    | PortDispose(port: ObjectRef)

  /**
   * CoreMIDI's answers during one subscription: each status, and the value
   * each out-parameter holds after its call (whether or not the call succeeded).
   */
  datatype CoreMidi = CoreMidi(
    findStatus: OSStatus, foundRef: ObjectRef, foundType: MidiObjectType,
    createStatus: OSStatus, createdPort: ObjectRef,
    connectStatus: OSStatus)

  /** What a subscription hands back; disposing it makes the calls of Dispose(). */
  datatype Disposable = EmptyDisposable | Teardown(port: ObjectRef, source: ObjectRef)
  {
    /**
     * The teardown closure's calls: nothing for the empty disposable; otherwise the
     * port is disconnected from the source and then disposed, and not named again.
     */
    function Dispose(): (calls: seq<MidiCall>)
      ensures EmptyDisposable? ==> calls == []
      ensures Teardown? ==> |calls| == 2 && calls[|calls| - 1] == PortDispose(port)
      ensures Teardown? ==> calls[0] == PortDisconnectSource(port, source)
      ensures NoUseAfterDispose(calls)
    {
      match this
      case EmptyDisposable => []
      case Teardown(port, source) => [PortDisconnectSource(port, source), PortDispose(port)]
    }
  }

  /** The observable getInputStream returns: its source and the port name fixed at creation. */
  datatype MidiInputStream = MidiInputStream(sourceId: Int32, portName: string)

  const GeneratedPortNamePrefix := "CoreMidiMidiManager_InputPort-"

  /** A supplied name is used as is; otherwise one is made from a fresh UUID string. */
  function PortName(name: Option<string>, uuid: string): (r: string)
    ensures name.Some? ==> r == name.value
    ensures name.None? ==> GeneratedPortNamePrefix <= r && r[|GeneratedPortNamePrefix|..] == uuid
  {
    match name
    case Some(n) => n
    case None => GeneratedPortNamePrefix + uuid
  }

  /**
   * getInputStream: the port name is chosen once per call, so all
   * subscriptions to the returned stream share it.
   */
  function GetInputStream(sourceId: Int32, name: Option<string>, uuid: string): (s: MidiInputStream)
    ensures s.sourceId == sourceId
    ensures name.Some? ==> s.portName == name.value
    ensures name.None? ==> GeneratedPortNamePrefix <= s.portName
  {
    MidiInputStream(sourceId, PortName(name, uuid))
  }

  /** Generated names from distinct UUIDs differ. */
  lemma GeneratedPortNamesDiffer(uuid1: string, uuid2: string)
    requires uuid1 != uuid2
    ensures PortName(None, uuid1) != PortName(None, uuid2)
  {
  }

  predicate UsesPort(call: MidiCall, port: ObjectRef)
  {
    match call
    case ObjectFindByUniqueId(_) => false
    case InputPortCreate(_, _, _) => false
    case PortConnectSource(p, _) => p == port
    case PortDisconnectSource(p, _) => p == port
    case PortDispose(p) => p == port
  }

  /** No call names a port after that port was disposed. */
  ghost predicate NoUseAfterDispose(trace: seq<MidiCall>)
  {
    forall i, j :: 0 <= i < j < |trace| && trace[i].PortDispose? ==> !UsesPort(trace[j], trace[i].port)
  }

  /** Every connection made is later undone, and the port disposed after that. */
  ghost predicate ConnectionsReleased(trace: seq<MidiCall>)
  {
    forall i :: 0 <= i < |trace| && trace[i].PortConnectSource? ==>
      exists j, k :: i < j < k < |trace|
        && trace[j] == PortDisconnectSource(trace[i].port, trace[i].source)
        && trace[k] == PortDispose(trace[i].port)
  }

  predicate IsPortCreate(call: MidiCall) { call.InputPortCreate? }

  predicate IsPortDispose(call: MidiCall) { call.PortDispose? }

  /** The lookup succeeded and found a source: the test at the head of the subscribe closure. */
  predicate SourceFound(midi: CoreMidi)
  {
    midi.findStatus == NoErr && midi.foundType == Source
  }

  /**
   * A setup that got past the lookup, followed by its teardown, keeps the
   * port discipline: the port is never used once disposed, its connection is
   * undone before the disposal, and it is disposed once, as a creation was attempted once.
   */
  lemma {:induction false} FullSetupTraceIsReleased(find: MidiCall, create: MidiCall, port: ObjectRef, source: ObjectRef)
    requires find.ObjectFindByUniqueId? && create.InputPortCreate?
    ensures var trace := [find, create, PortConnectSource(port, source)]
                       + Teardown(port, source).Dispose();
      && NoUseAfterDispose(trace)
      && ConnectionsReleased(trace)
      && Count(trace, IsPortDispose) == Count([find, create, PortConnectSource(port, source)], IsPortCreate) == 1
  {
    var calls := [find, create, PortConnectSource(port, source)];
    var trace := calls + Teardown(port, source).Dispose();
    assert trace == [find, create, PortConnectSource(port, source), PortDisconnectSource(port, source), PortDispose(port)];
    assert ConnectionsReleased(trace) by {
      forall i | 0 <= i < |trace| && trace[i].PortConnectSource?
        ensures exists j, k :: (i < j < k < |trace|
          && trace[j] == PortDisconnectSource(trace[i].port, trace[i].source)
          && trace[k] == PortDispose(trace[i].port))
      {
        assert i == 2;
        assert trace[3] == PortDisconnectSource(trace[i].port, trace[i].source);
        assert trace[4] == PortDispose(trace[i].port);
      }
    }
    assert Count(trace[4..], IsPortDispose) == 1 by { assert trace[4..][1..] == []; }
    assert Count(trace[3..], IsPortDispose) == 1 by { assert trace[3..][1..] == trace[4..]; }
    assert Count(trace[2..], IsPortDispose) == 1 by { assert trace[2..][1..] == trace[3..]; }
    assert Count(trace[1..], IsPortDispose) == 1 by { assert trace[1..][1..] == trace[2..]; }
    assert Count(calls[2..], IsPortCreate) == 0 by { assert calls[2..][1..] == []; }
    assert Count(calls[1..], IsPortCreate) == 1 by { assert calls[1..][1..] == calls[2..]; }
  }

  /**
   * The subscribe closure of getInputStream. Returns the errors sent to the
   * observer, the CoreMIDI calls made during setup, and the disposable.
   * As getInputStream does, it goes on after a failed port creation: the
   * connect is still attempted and the full teardown still returned.
   */
  method Subscribe(stream: MidiInputStream, client: ObjectRef, midi: CoreMidi)
    returns (errors: seq<MidiInputError>, calls: seq<MidiCall>, disposable: Disposable)
    ensures calls != [] && calls[0] == ObjectFindByUniqueId(stream.sourceId)
    ensures UnknownSource in errors <==> !SourceFound(midi)
    ensures !SourceFound(midi) ==> errors == [UnknownSource]
    ensures !SourceFound(midi) ==> |calls| == 1 && disposable.Dispose() == []
    ensures SourceFound(midi) ==> calls == [ObjectFindByUniqueId(stream.sourceId),
      InputPortCreate(client, stream.portName, ReadBlock(stream.portName, stream.sourceId)),
      PortConnectSource(midi.createdPort, midi.foundRef)]
    ensures SourceFound(midi) ==> forall list :: Readable(list) ==>
      calls[1].readBlock.Forwarded(list) == DecodedEvents(list.packets, stream.portName, stream.sourceId)
    ensures SourceFound(midi) ==> (CouldNotCreatePort in errors <==> midi.createStatus != NoErr)
    ensures SourceFound(midi) ==> (CouldNotConnectPortToSource in errors <==> midi.connectStatus != NoErr)
    ensures SourceFound(midi) ==>
      errors == (if midi.createStatus != NoErr then [CouldNotCreatePort] else [])
              + (if midi.connectStatus != NoErr then [CouldNotConnectPortToSource] else [])
    ensures SourceFound(midi) ==>
      disposable.Dispose() == [PortDisconnectSource(midi.createdPort, midi.foundRef), PortDispose(midi.createdPort)]
    ensures NoUseAfterDispose(calls + disposable.Dispose())
    ensures ConnectionsReleased(calls + disposable.Dispose())
    ensures Count(calls + disposable.Dispose(), IsPortDispose) == Count(calls, IsPortCreate) <= 1
  {
    errors, calls := [], [];

    var sourceRef: ObjectRef := 0;
    var foundObjectType := Other;
    var status := midi.findStatus;
    sourceRef, foundObjectType := midi.foundRef, midi.foundType;
    calls := calls + [ObjectFindByUniqueId(stream.sourceId)];
    if status != NoErr || foundObjectType != Source {
      errors := errors + [UnknownSource];
      disposable := EmptyDisposable;
      assert calls + disposable.Dispose() == calls && calls[1..] == [];
    } else {
      var readBlock := ReadBlock(stream.portName, stream.sourceId);
      var port: ObjectRef := 0;
      status, port := midi.createStatus, midi.createdPort;
      calls := calls + [InputPortCreate(client, stream.portName, readBlock)];
      if status != NoErr {
        errors := errors + [CouldNotCreatePort];
      }

      // No return after a failed creation: the connect runs with whatever port holds.
      status := midi.connectStatus;
      calls := calls + [PortConnectSource(port, sourceRef)];
      if status != NoErr {
        errors := errors + [CouldNotConnectPortToSource];
      }

      disposable := Teardown(port, sourceRef);
      assert calls == [ObjectFindByUniqueId(stream.sourceId),
        InputPortCreate(client, stream.portName, readBlock), PortConnectSource(port, sourceRef)];
      forall list | Readable(list)
        ensures calls[1].readBlock.Forwarded(list) == DecodedEvents(list.packets, stream.portName, stream.sourceId)
      {
      }
      FullSetupTraceIsReleased(calls[0], calls[1], port, sourceRef);
    }
  }
}

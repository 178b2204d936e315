/**
 * The value types of the MIDI input stream, the note naming of a note
 * number, and the stream operators `channel`, `type` and `notes`.
 * A stream is modelled by the finite sequence of events it emits.
 */
module MidiInput {
  import opened Wrappers
  import opened Decimal
  import opened SeqOps

  /** Swift's `UInt8`: the shift, mask, division and remainder are the bit-vector ones. */
  type UInt8 = bv8

  /** Swift's `Int32`. */
  type Int32 = x: int | -0x8000_0000 <= x < 0x8000_0000

  datatype MidiInputEventType = On | Off

  /** One decoded event. `destinationId` carries the id of the source it came from. */
  datatype MidiInputEvent = MidiInputEvent(portName: string, destinationId: Int32, data: MidiInputData)

  /** Pitch-class names, indexed by `noteValue % 12`. */
  const NoteNames: seq<string> := ["C", "C#", "D", "D#", "E", "F", "F#", "G", "G#", "A", "A#", "B"]

  /** The Swift field `type` is called `eventType` here, `type` being a Dafny keyword. */
  datatype MidiInputData = MidiInputData(eventType: MidiInputEventType, channel: UInt8, noteValue: UInt8, velocity: UInt8)
  {
    /** Pitch class followed by the octave, octave -1 holding notes 0 to 11. */
    function Note(): (r: string)
      ensures |r| >= 2
    {
      var octave := (noteValue / 12) as int - 1;
      NoteNames[(noteValue % 12) as int] + IntToString(octave)
    }
  }

  datatype MidiInputError = CouldNotCreatePort | CouldNotConnectPortToSource | UnknownSource

  // ----- Reading a note name back -------------------------------------------

  /** The position of `name` in NoteNames. */
  function PitchClass(name: string): (r: Option<nat>)
    ensures r.Some? ==> r.value < 12 && NoteNames[r.value] == name
  {
    PitchClassFrom(name, 0)
  }

  function PitchClassFrom(name: string, k: nat): (r: Option<nat>)
    requires k <= 12
    ensures r.Some? ==> k <= r.value < 12 && NoteNames[r.value] == name
    decreases 12 - k
  {
    if k == 12 then None
    else if NoteNames[k] == name then Some(k)
    else PitchClassFrom(name, k + 1)
  }

  /** The note number a name produced by Note stands for, if it is one. */
  function NoteNumber(name: string): Option<int>
  {
    var split := if |name| >= 2 && name[1] == '#' then 2 else 1;
    if |name| < split then None
    else match (PitchClass(name[..split]), ParseInt(name[split..]))
      case (Some(pc), Some(octave)) => Some(12 * (octave + 1) + pc)
      case _ => None
  }

  /** The twelve names are pairwise distinct, so each reads back as its own index. */
  lemma PitchClassOfName(k: nat)
    requires k < 12
    ensures PitchClass(NoteNames[k]) == Some(k)
  {
  }

  /** The octave computed by Note, as an integer. */
  lemma NoteParts(v: UInt8)
    ensures (v % 12) as int == (v as int) % 12
    ensures (v / 12) as int == (v as int) / 12
  {
  }

  /** Reading a pitch class followed by a decimal octave gives back both. */
  lemma {:induction false} NoteNumberOfParts(k: nat, octave: int)
    requires k < 12
    ensures NoteNumber(NoteNames[k] + IntToString(octave)) == Some(12 * (octave + 1) + k)
  {
    var pc, digits := NoteNames[k], IntToString(octave);
    var name := pc + digits;
    PitchClassOfName(k);
    ParseIntToString(octave);
    if |pc| == 2 {
      assert name[1] == '#';
      assert name[..2] == pc && name[2..] == digits;
    } else {
      assert name[1] == digits[0];
      assert name[..1] == pc && name[1..] == digits;
    }
  }

  /** Distinct note numbers get distinct names: NoteNumber undoes Note. */
  lemma {:induction false} NoteRoundTrip(d: MidiInputData)
    ensures NoteNumber(d.Note()) == Some(d.noteValue as int)
  {
    var n := d.noteValue as int;
    NoteParts(d.noteValue);
    assert d.Note() == NoteNames[n % 12] + IntToString(n / 12 - 1);
    NoteNumberOfParts(n % 12, n / 12 - 1);
  }

  lemma NoteExamples()
    ensures MidiInputData(On, 0, 60, 100).Note() == "C4"
    ensures MidiInputData(On, 0, 61, 100).Note() == "C#4"
    ensures MidiInputData(On, 0, 69, 100).Note() == "A4"
    ensures MidiInputData(On, 0, 0, 100).Note() == "C-1"
  {
  }

  // ----- Stream operators ---------------------------------------------------

  function OnChannel(channel: UInt8): MidiInputEvent -> bool
  {
    (e: MidiInputEvent) => e.data.channel == channel
  }

  function OfType(eventType: MidiInputEventType): MidiInputEvent -> bool
  {
    (e: MidiInputEvent) => e.data.eventType == eventType
  }

  /** The events on `channel`, in stream order. */
  function Channel(events: seq<MidiInputEvent>, channel: UInt8): (r: seq<MidiInputEvent>)
    ensures |r| == Count(events, OnChannel(channel)) <= |events|
    ensures forall i :: 0 <= i < |r| ==> r[i] in events && r[i].data.channel == channel
    ensures forall i :: 0 <= i < |events| && events[i].data.channel == channel ==> events[i] in r
  {
    Filter(events, OnChannel(channel))
  }

  /** The events of type `eventType`, in stream order. */
  function Type(events: seq<MidiInputEvent>, eventType: MidiInputEventType): (r: seq<MidiInputEvent>)
    ensures |r| == Count(events, OfType(eventType)) <= |events|
    ensures forall i :: 0 <= i < |r| ==> r[i] in events && r[i].data.eventType == eventType
    ensures forall i :: 0 <= i < |events| && events[i].data.eventType == eventType ==> events[i] in r
  {
    Filter(events, OfType(eventType))
  }

  /** The names of the notes switched on, in stream order. */
  function Notes(events: seq<MidiInputEvent>): (r: seq<string>)
    ensures |r| == Count(events, OfType(On)) <= |events|
    ensures forall i :: 0 <= i < |r| ==> |r[i]| >= 2
  {
    Map(Type(events, On), (e: MidiInputEvent) => e.data.Note())
  }

  lemma ChannelIsSubsequence(events: seq<MidiInputEvent>, channel: UInt8)
    ensures IsSubsequence(Channel(events, channel), events)
  {
    FilterIsSubsequence(events, OnChannel(channel));
  }

  lemma TypeIsSubsequence(events: seq<MidiInputEvent>, eventType: MidiInputEventType)
    ensures IsSubsequence(Type(events, eventType), events)
  {
    FilterIsSubsequence(events, OfType(eventType));
  }

  /** Filtering a concatenation filters each part: relative order is kept. */
  lemma ChannelAppend(a: seq<MidiInputEvent>, b: seq<MidiInputEvent>, channel: UInt8)
    ensures Channel(a + b, channel) == Channel(a, channel) + Channel(b, channel)
  {
    FilterAppend(a, b, OnChannel(channel));
  }

  lemma TypeAppend(a: seq<MidiInputEvent>, b: seq<MidiInputEvent>, eventType: MidiInputEventType)
    ensures Type(a + b, eventType) == Type(a, eventType) + Type(b, eventType)
  {
    FilterAppend(a, b, OfType(eventType));
  }

  lemma ChannelIdempotent(events: seq<MidiInputEvent>, channel: UInt8)
    ensures Channel(Channel(events, channel), channel) == Channel(events, channel)
  {
    FilterIdempotent(events, OnChannel(channel));
  }

  lemma TypeIdempotent(events: seq<MidiInputEvent>, eventType: MidiInputEventType)
    ensures Type(Type(events, eventType), eventType) == Type(events, eventType)
  {
    FilterIdempotent(events, OfType(eventType));
  }

  lemma ChannelTypeCommute(events: seq<MidiInputEvent>, channel: UInt8, eventType: MidiInputEventType)
    ensures Type(Channel(events, channel), eventType) == Channel(Type(events, eventType), channel)
  {
    FilterCommutes(events, OnChannel(channel), OfType(eventType));
  }

  /** A stream already all on `channel` passes through unchanged. */
  lemma ChannelOfSingleChannel(events: seq<MidiInputEvent>, channel: UInt8)
    requires forall i :: 0 <= i < |events| ==> events[i].data.channel == channel
    ensures Channel(events, channel) == events
  {
    FilterAllKept(events, OnChannel(channel));
  }

  /** Notes grows by one name exactly when an On event arrives. */
  lemma NotesAppendEvent(events: seq<MidiInputEvent>, e: MidiInputEvent)
    ensures Notes(events + [e]) == Notes(events) + (if e.data.eventType == On then [e.data.Note()] else [])
  {
    var f := (e: MidiInputEvent) => e.data.Note();
    TypeAppend(events, [e], On);
    MapAppend(Type(events, On), Type([e], On), f);
    assert Filter([e], OfType(On)) == if e.data.eventType == On then [e] else [];
  }

  lemma ChannelExample(a: MidiInputData, b: MidiInputData, c: MidiInputData, d: MidiInputData, port: string, id: Int32)
    requires a.channel == 5 && b.channel == 5 && c.channel == 3 && d.channel == 5
    ensures var ev := (x: MidiInputData) => MidiInputEvent(port, id, x);
      Channel([ev(a), ev(b), ev(c), ev(d)], 5) == [ev(a), ev(b), ev(d)]
  {
    var ev := (x: MidiInputData) => MidiInputEvent(port, id, x);
    var p := OnChannel(5);
    var s := [ev(a), ev(b), ev(c), ev(d)];
    assert Filter(s[3..], p) == [ev(d)] by { assert s[3..][1..] == []; }
    assert Filter(s[2..], p) == [ev(d)] by { assert s[2..][1..] == s[3..]; }
    assert Filter(s[1..], p) == [ev(b), ev(d)] by { assert s[1..][1..] == s[2..]; }
    assert Filter(s, p) == [ev(a), ev(b), ev(d)];
  }

  lemma NotesExample(port: string, id: Int32)
    ensures Notes([MidiInputEvent(port, id, MidiInputData(On, 0, 60, 64)),
                   MidiInputEvent(port, id, MidiInputData(Off, 0, 60, 0)),
                   MidiInputEvent(port, id, MidiInputData(On, 0, 62, 64))]) == ["C4", "D4"]
  {
    var e0 := MidiInputEvent(port, id, MidiInputData(On, 0, 60, 64));
    var e1 := MidiInputEvent(port, id, MidiInputData(Off, 0, 60, 0));
    var e2 := MidiInputEvent(port, id, MidiInputData(On, 0, 62, 64));
    var p := OfType(On);
    var s := [e0, e1, e2];
    assert Filter(s[2..], p) == [e2] by { assert s[2..][1..] == []; }
    assert Filter(s[1..], p) == [e2] by { assert s[1..][1..] == s[2..]; }
    assert Type(s, On) == [e0, e2];
    assert e0.data.Note() == "C4";
    assert e2.data.Note() == "D4";
  }
}

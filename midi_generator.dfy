/** The event list that `generateMidiFile` hands to the MIDI writer: one
    program change, then one whole-note chord per chord symbol that has a
    semitone entry. The byte-level serialisation by the MIDI library is not
    part of this model. */
module MidiGenerator {
  import opened Common
  import opened ChordTables

  /** A pitch as JavaScript computes it: a number, or `NaN` when the key has
      no offset (`undefined + semitone`). */
  datatype Pitch = Pitch(value: int) | NotANumber

  datatype MidiEvent =
    | ProgramChange(instrument: int)
    | NoteEvent(pitch: seq<Pitch>, duration: string, velocity: int)

  /** The track being filled: `addEvent` appends. */
  class Track {
    var events: seq<MidiEvent>

    constructor()
      ensures events == []
    {
      events := [];
    }

    method AddEvent(e: MidiEvent)
      modifies this
      ensures events == old(events) + [e]
    {
      events := events + [e];
    }
  }

  /** `Math.max(0, Math.min(127, x))`: the nearest value in the MIDI range. */
  function Clamp(x: int): (r: int)
    ensures 0 <= r <= 127
    ensures 0 <= x <= 127 ==> r == x
    ensures x < 0 ==> r == 0
    ensures x > 127 ==> r == 127
  {
    if x < 0 then 0 else if x > 127 then 127 else x
  }

  /** One entry of `chordSemitones.map(...)`: the clamped absolute pitch.
      `NaN` passes through both `Math.min` and `Math.max` unchanged. */
  function NotePitch(keyOffset: Option<int>, semitone: int): (r: Pitch)
    ensures r.NotANumber? <==> keyOffset.None?
    ensures r.Pitch? ==> 0 <= r.value <= 127
    ensures keyOffset.Some? && 0 <= keyOffset.value + semitone <= 127 ==> r == Pitch(keyOffset.value + semitone)
  {
    match keyOffset
    case None => NotANumber
    case Some(k) => Pitch(Clamp(k + semitone))
  }

  /** `chordSemitones.map(...)`: one pitch per semitone, in the same order. */
  function Pitches(keyOffset: Option<int>, semitones: seq<int>): (r: seq<Pitch>)
    ensures |r| == |semitones|
    ensures forall j :: 0 <= j < |semitones| ==> r[j] == NotePitch(keyOffset, semitones[j])
  {
    if semitones == [] then []
    else [NotePitch(keyOffset, semitones[0])] + Pitches(keyOffset, semitones[1..])
  }

  /** The note event for a mapped chord: a whole note at velocity 80. */
  function ChordEvent(keyOffset: Option<int>, semitones: seq<int>): MidiEvent
  {
    NoteEvent(Pitches(keyOffset, semitones), "1", 80)
  }

  /** The note events the `forEach` adds for `chords`, in order. */
  function ChordEvents(chords: seq<string>, keyOffset: Option<int>): (r: seq<MidiEvent>)
    ensures |r| <= |chords|
    decreases |chords|
  {
    if chords == [] then []
    else
      var prior := ChordEvents(chords[..|chords| - 1], keyOffset);
      match ChordSemitones(chords[|chords| - 1])
      case None => prior
      case Some(semitones) => prior + [ChordEvent(keyOffset, semitones)]
  }

  /** The whole event list of the track for `chordProgression` in `key`. */
  function MidiEventsOf(chords: seq<string>, key: string): (r: seq<MidiEvent>)
    ensures 1 <= |r| <= |chords| + 1 && r[0] == ProgramChange(0)
  {
    [ProgramChange(0)] + ChordEvents(chords, KeyToMidiOffset(key))
  }

  /** `generateMidiFile(chordProgression, key)` up to the finished track: the
      events added, the program change first. */
  method GenerateMidiEvents(chords: seq<string>, key: string) returns (events: seq<MidiEvent>)
    ensures events == MidiEventsOf(chords, key)
    ensures events[0] == ProgramChange(0)
  {
    var track := new Track();
    var keyOffset := KeyToMidiOffset(key);
    track.AddEvent(ProgramChange(0));
    var i := 0;
    while i < |chords|
      invariant 0 <= i <= |chords|
      invariant track.events == [ProgramChange(0)] + ChordEvents(chords[..i], keyOffset)
    {
      var chord := chords[i];
      var chordSemitones := ChordSemitones(chord);
      assert chords[..i + 1][..i] == chords[..i];
      if chordSemitones.Some? {
        var midiNotes := Pitches(keyOffset, chordSemitones.value);
        track.AddEvent(NoteEvent(midiNotes, "1", 80));
      }
      i := i + 1;
    }
    assert chords[..i] == chords;
    events := track.events;
  }

  // ---------------------------------------------------------------------
  // Properties of the event list

  /** The chords that have a semitone entry, in input order. */
  function MappedChords(chords: seq<string>): (r: seq<string>)
    ensures forall c :: c in r <==> c in chords && ChordSemitones(c).Some?
    decreases |chords|
  {
    if chords == [] then []
    else
      var last := chords[|chords| - 1];
      MappedChords(chords[..|chords| - 1]) + (if ChordSemitones(last).Some? then [last] else [])
  }

  /** The note events correspond one to one, in order, with the mapped chords:
      unmapped chords add nothing. */
  lemma {:induction false} EventsFollowMappedChords(chords: seq<string>, keyOffset: Option<int>)
    ensures |ChordEvents(chords, keyOffset)| == |MappedChords(chords)|
    ensures forall j :: 0 <= j < |MappedChords(chords)| ==>
      ChordSemitones(MappedChords(chords)[j]).Some? &&
      ChordEvents(chords, keyOffset)[j] == ChordEvent(keyOffset, ChordSemitones(MappedChords(chords)[j]).value)
    decreases |chords|
  {
    if chords != [] {
      EventsFollowMappedChords(chords[..|chords| - 1], keyOffset);
    }
  }

  /** The events of a concatenation are the concatenation of the events. */
  lemma {:induction false} ChordEventsAppend(a: seq<string>, b: seq<string>, keyOffset: Option<int>)
    ensures ChordEvents(a + b, keyOffset) == ChordEvents(a, keyOffset) + ChordEvents(b, keyOffset)
    decreases |b|
  {
    if b != [] {
      var b' := b[..|b| - 1];
      assert (a + b)[..|a + b| - 1] == a + b';
      ChordEventsAppend(a, b', keyOffset);
    } else {
      assert a + b == a;
    }
  }

  /** An unmapped chord is skipped silently: removing it changes nothing. */
  lemma UnmappedChordSkipped(a: seq<string>, chord: string, b: seq<string>, key: string)
    requires ChordSemitones(chord).None?
    ensures MidiEventsOf(a + [chord] + b, key) == MidiEventsOf(a + b, key)
  {
    var k := KeyToMidiOffset(key);
    ChordEventsAppend(a + [chord], b, k);
    ChordEventsAppend(a, [chord], k);
    ChordEventsAppend(a, b, k);
    assert ChordEvents([chord], k) == [] by {
      assert [chord][..0] == [];
    }
  }

  /** After the program change every event is a whole note at velocity 80,
      and the list is one longer than the mapped chords. */
  lemma EventsAreWholeNotes(chords: seq<string>, key: string)
    ensures |MidiEventsOf(chords, key)| == |MappedChords(chords)| + 1
    ensures MidiEventsOf(chords, key)[0] == ProgramChange(0)
    ensures forall j :: 1 <= j < |MidiEventsOf(chords, key)| ==>
      MidiEventsOf(chords, key)[j].NoteEvent? &&
      MidiEventsOf(chords, key)[j].duration == "1" &&
      MidiEventsOf(chords, key)[j].velocity == 80
  {
    EventsFollowMappedChords(chords, KeyToMidiOffset(key));
  }

  /** For a known key and a mapped chord every pitch is the unclamped sum, and
      lies in 60..88: the clamp never changes a value. */
  lemma ClampNeverBinds(key: string, symbol: string)
    requires key in KeyNames && ChordSemitones(symbol).Some?
    ensures var semitones := ChordSemitones(symbol).value;
      var pitches := Pitches(KeyToMidiOffset(key), semitones);
      forall j :: 0 <= j < |pitches| ==>
        pitches[j] == Pitch(KeyToMidiOffset(key).value + semitones[j]) && 60 <= pitches[j].value <= 88
  {
  }

  /** I, IV, V, I in C: the triads on C, F, G and C in the middle octave. */
  lemma CMajorCadence()
    ensures MidiEventsOf(["I", "IV", "V", "I"], "C") == [
      ProgramChange(0),
      NoteEvent([Pitch(60), Pitch(64), Pitch(67)], "1", 80),
      NoteEvent([Pitch(65), Pitch(69), Pitch(72)], "1", 80),
      NoteEvent([Pitch(67), Pitch(71), Pitch(74)], "1", 80),
      NoteEvent([Pitch(60), Pitch(64), Pitch(67)], "1", 80)]
  {
    assert KeyToMidiOffset("C") == Some(60);
    CadenceEvents();
  }

  /** The note events of I-IV-V-I over base pitch 60. */
  lemma CadenceEvents()
    ensures ChordEvents(["I", "IV", "V", "I"], Some(60)) == [
      NoteEvent([Pitch(60), Pitch(64), Pitch(67)], "1", 80),
      NoteEvent([Pitch(65), Pitch(69), Pitch(72)], "1", 80),
      NoteEvent([Pitch(67), Pitch(71), Pitch(74)], "1", 80),
      NoteEvent([Pitch(60), Pitch(64), Pitch(67)], "1", 80)]
  {
    var k := Some(60);
    CadenceTriads();
    ChordEventsAppend(["I"], ["IV"], k);
    assert ["I"] + ["IV"] == ["I", "IV"];
    ChordEventsAppend(["I", "IV"], ["V"], k);
    assert ["I", "IV"] + ["V"] == ["I", "IV", "V"];
    ChordEventsAppend(["I", "IV", "V"], ["I"], k);
    assert ["I", "IV", "V"] + ["I"] == ["I", "IV", "V", "I"];
  }


  /** The tonic, subdominant and dominant triads in C. */
  lemma CadenceTriads()
    ensures ChordEvents(["I"], Some(60)) == [NoteEvent([Pitch(60), Pitch(64), Pitch(67)], "1", 80)]
    ensures ChordEvents(["IV"], Some(60)) == [NoteEvent([Pitch(65), Pitch(69), Pitch(72)], "1", 80)]
    ensures ChordEvents(["V"], Some(60)) == [NoteEvent([Pitch(67), Pitch(71), Pitch(74)], "1", 80)]
  {
    TriadEvent(Some(60), "I", 60, 64, 67);
    TriadEvent(Some(60), "IV", 65, 69, 72);
    TriadEvent(Some(60), "V", 67, 71, 74);
  }

  /** The events of a single mapped chord in C: its three pitches. */
  lemma TriadEvent(k: Option<int>, symbol: string, p0: int, p1: int, p2: int)
    requires k == Some(60) && ChordSemitones(symbol) == Some([p0 - 60, p1 - 60, p2 - 60])
    requires 60 <= p0 <= 127 && 60 <= p1 <= 127 && 60 <= p2 <= 127
    ensures ChordEvents([symbol], k) == [NoteEvent([Pitch(p0), Pitch(p1), Pitch(p2)], "1", 80)]
  {
    assert [symbol][..0] == [];
    var ps := Pitches(k, [p0 - 60, p1 - 60, p2 - 60]);
    assert ps == [Pitch(p0), Pitch(p1), Pitch(p2)];
  }
}

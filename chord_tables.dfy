/** The three static tables of the chord theory module and the first-chord
    lookup built on them. The tables are constants: nothing in the model can
    change them. */
module ChordTables {
  import opened Common

  /** The keys of `SCALE_CHORDS`, in declaration order. */
  const ScaleTypeNames: seq<string> := ["Any", "Major", "Natural minor", "Harmonic minor", "Melodic minor"]

  /** `SCALE_CHORDS[scaleType]`: the chord vocabulary of a scale type, or
      `None` where the source yields `undefined`. */
  function ScaleChords(scaleType: string): (r: Option<seq<string>>)
    ensures r.Some? <==> scaleType in ScaleTypeNames
    ensures r.Some? ==> |r.value| >= 7
  {
    match scaleType
    case "Any" => Some(["i", "I", "ii", "ii°", "iii", "III", "III+", "iv", "IV", "v", "V", "vi", "vi°", "VI", "vii°", "VII"])
    case "Major" => Some(["I", "ii", "iii", "IV", "V", "vi", "vii°"])
    case "Natural minor" => Some(["i", "ii°", "III", "iv", "v", "VI", "VII"])
    case "Harmonic minor" => Some(["i", "ii°", "III+", "iv", "V", "VI", "vii°"])
    case "Melodic minor" => Some(["i", "ii", "iii+", "IV", "V", "vi°", "vii°"])
    case _ => None
  }

  /** `Object.keys(CHORD_SEMITONES)`: the chord symbols in declaration order
      (basic triads, then the suspended variants, then the tritone substitute). */
  const ChordSymbols: seq<string> :=
        ["i", "I", "ii", "ii°", "iii", "III", "III+", "iv"]
    + ["IV", "v", "V", "vi", "vi°", "VI", "vii°", "VII"]
    + ["Isus2", "Isus4", "iisus2", "iisus4", "ii°sus2", "ii°sus4", "iiisus2", "iiisus4"]
    + ["IIIsus2", "IIIsus4", "III+sus2", "III+sus4", "ivsus2", "ivsus4", "IVsus2", "IVsus4"]
    + ["vsus2", "vsus4", "Vsus2", "Vsus4", "visus2", "visus4", "vi°sus2", "vi°sus4"]
    + ["VIsus2", "VIsus4", "vii°sus2", "vii°sus4", "VIIsus2", "VIIsus4", "subV7"]

  /** `CHORD_SEMITONES[symbol]`: the semitone offsets of a chord above the tonic. */
  function ChordSemitones(symbol: string): (r: Option<seq<int>>)
    ensures r.Some? ==> 2 <= |r.value| <= 3
    ensures r.Some? ==> forall j :: 0 <= j < |r.value| ==> 0 <= r.value[j] <= 17
  {
    match symbol
    case "i" => Some([0, 3, 7])
    case "I" => Some([0, 4, 7])
    case "ii" => Some([2, 5, 9])
    case "ii°" => Some([2, 5, 8])
    case "iii" => Some([4, 7, 11])
    case "III" => Some([3, 7, 10])
    case "III+" => Some([3, 7, 11])
    case "iv" => Some([5, 8, 12])
    case "IV" => Some([5, 9, 12])
    case "v" => Some([7, 10, 14])
    case "V" => Some([7, 11, 14])
    case "vi" => Some([9, 12, 16])
    case "vi°" => Some([9, 12, 15])
    case "VI" => Some([8, 12, 15])
    case "vii°" => Some([11, 14, 17])
    case "VII" => Some([10, 14, 17])
    case "Isus2" => Some([0, 2, 7])
    case "Isus4" => Some([0, 5, 7])
    case "iisus2" => Some([2, 4, 9])
    case "iisus4" => Some([2, 7, 9])
    case "ii°sus2" => Some([2, 4, 8])
    case "ii°sus4" => Some([2, 7, 8])
    case "iiisus2" => Some([4, 6, 11])
    case "iiisus4" => Some([4, 9, 11])
    case "IIIsus2" => Some([3, 5, 10])
    case "IIIsus4" => Some([3, 8, 10])
    case "III+sus2" => Some([3, 5, 11])
    case "III+sus4" => Some([3, 8, 11])
    case "ivsus2" => Some([5, 7, 12])
    case "ivsus4" => Some([5, 10, 12])
    case "IVsus2" => Some([5, 7, 12])
    case "IVsus4" => Some([5, 10, 12])
    case "vsus2" => Some([7, 9, 14])
    case "vsus4" => Some([7, 12, 14])
    case "Vsus2" => Some([7, 9, 14])
    case "Vsus4" => Some([7, 12, 14])
    case "visus2" => Some([9, 11, 16])
    case "visus4" => Some([9, 14, 16])
    case "vi°sus2" => Some([9, 11, 15])
    case "vi°sus4" => Some([9, 14, 15])
    case "VIsus2" => Some([8, 10, 15])
    case "VIsus4" => Some([8, 13, 15])
    case "vii°sus2" => Some([11, 13, 17])
    case "vii°sus4" => Some([11, 16, 17])
    case "VIIsus2" => Some([10, 12, 17])
    case "VIIsus4" => Some([10, 15, 17])
    case "subV7" => Some([0, 6])
    case _ => None
  }

  /** The keys of `KEY_TO_MIDI_OFFSET`, in declaration order. */
  const KeyNames: seq<string> := ["C", "C#", "D", "D#", "E", "F", "F#", "G", "G#", "A", "A#", "B"]

  /** `KEY_TO_MIDI_OFFSET[key]`: the MIDI note number of the key's tonic
      (middle C is 60). */
  function KeyToMidiOffset(key: string): (r: Option<int>)
    ensures r.Some? <==> key in KeyNames
    ensures r.Some? ==> 60 <= r.value <= 71
  {
    match key
    case "C" => Some(60)
    case "C#" => Some(61)
    case "D" => Some(62)
    case "D#" => Some(63)
    case "E" => Some(64)
    case "F" => Some(65)
    case "F#" => Some(66)
    case "G" => Some(67)
    case "G#" => Some(68)
    case "A" => Some(69)
    case "A#" => Some(70)
    case "B" => Some(71)
    case _ => None
  }

  /** `getFirstChordOptions(scaleType)`: `SCALE_CHORDS[scaleType] || []`. */
  function GetFirstChordOptions(scaleType: string): (r: seq<string>)
    ensures scaleType in ScaleTypeNames ==> r == ScaleChords(scaleType).value && |r| >= 7
    ensures scaleType !in ScaleTypeNames ==> r == []
  {
    match ScaleChords(scaleType)
    case Some(v) => v
    case None => []
  }

  // The symbol list is checked against the lookup eight entries at a time.

  lemma SymbolsMappedLow(i: nat, lo: nat)
    requires lo % 8 == 0 && lo <= i < lo + 8 && i < 24
    ensures ChordSemitones(ChordSymbols[i]).Some?
  {
    if lo == 0 {
    } else if lo == 8 {
    } else {
    }
  }

  lemma SymbolsMappedHigh(i: nat, lo: nat)
    requires lo % 8 == 0 && lo <= i < lo + 8 && 24 <= i < |ChordSymbols|
    ensures ChordSemitones(ChordSymbols[i]).Some?
  {
    if lo == 24 {
    } else if lo == 32 {
    } else {
    }
  }

  /** A symbol with semitone offsets is one of the declared keys. */
  lemma MappedSymbolDeclared(symbol: string)
    requires ChordSemitones(symbol).Some?
    ensures symbol in ChordSymbols
  {
  }

  /** The symbol list and the lookup describe the same table: a symbol has
      semitone offsets exactly when it is one of the declared keys. */
  lemma ChordSymbolsAgree(symbol: string)
    ensures ChordSemitones(symbol).Some? <==> symbol in ChordSymbols
  {
    AllSymbolsMapped();
    if ChordSemitones(symbol).Some? {
      MappedSymbolDeclared(symbol);
    }
  }

  lemma AllSymbolsMapped()
    ensures forall i :: 0 <= i < |ChordSymbols| ==> ChordSemitones(ChordSymbols[i]).Some?
  {
    forall i | 0 <= i < |ChordSymbols|
      ensures ChordSemitones(ChordSymbols[i]).Some?
    {
      if i < 24 {
        SymbolsMappedLow(i, i - i % 8);
      } else {
        SymbolsMappedHigh(i, i - i % 8);
      }
    }
  }

  /** The keys run chromatically from C: the key at position `i` starts at
      MIDI note 60 + `i`. */
  lemma KeyOffsetsChromatic(i: nat)
    requires i < |KeyNames|
    ensures KeyToMidiOffset(KeyNames[i]) == Some(60 + i)
  {
  }

  /** Every chord a scale type offers has semitone offsets, except the
      augmented mediant `iii+` of melodic minor. */
  lemma VocabularyMapped(scaleType: string, symbol: string)
    requires ScaleChords(scaleType).Some? && symbol in ScaleChords(scaleType).value
    ensures ChordSemitones(symbol).Some? <==> symbol != "iii+"
    ensures symbol == "iii+" ==> scaleType == "Melodic minor"
  {
  }

  /** No vocabulary offers the placeholder "Any" or the tritone substitute. */
  lemma VocabularyExcludesSpecials(scaleType: string)
    requires ScaleChords(scaleType).Some?
    ensures "Any" !in ScaleChords(scaleType).value
    ensures "subV7" !in ScaleChords(scaleType).value
  {
  }
}

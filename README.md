# Obey-inator chord progressions in Dafny

A model of the logic in the Obey-inator chord-progression web app:

- the static music tables: scale type to chord vocabulary, chord symbol to semitone offsets, key to MIDI base pitch;
- the progression generator, with its first-chord rule, the 5% suspended-chord and tritone-substitute coins, and the no-immediate-repeat filter with its fallback;
- the chord-to-MIDI event mapping, up to the event list handed to the MIDI writer;
- the progression text formatter, the export and clipboard templates, and the download file names;
- the parameter-update rules of the two control panels: the first-chord reset on a scale change, the 10 BPM tempo gap, and the 4/4 time signature unless FUCK MYDYTECH is on;
- song-info derivation: the random song name, the tempo draw, the four-bar section count, the default-selection rule and the song-info texts;
- the state of both generator components: parameters, last progression, last song info and the FUCK MYDYTECH flag.

Every `Math.random()` is a supplied `Draw`, a real number in [0, 1).

- An index `Math.floor(Math.random() * n)` is `RandomIndex(r, n) = Floor(r * n)`. `RandomIndexReaches` shows that every index in [0, n) can be drawn.
- The 5% coins are `FivePercent(r)`, i.e. `r < 0.05`.
- A loop iteration of the generator receives a `StepDraw` holding its two coins and its pick. A coin the source does not evaluate (its flag is off) is ignored.

Keeping the draws as reals rather than as ready-made indices and booleans keeps the floor arithmetic and the 5% threshold of the source in the model. The reachability lemmas (`RandomIndexReaches`, `ElementReachable`, `DigitReachable`, `EveryTempoDrawn`, `EveryWellFormedNameDrawn`) show that nothing is lost: every index, tempo and name the source can produce is produced by some draw.

Modules, one per file:

- `Common`: `Option`, `Result`, draws.
- `Strings`: prefix, substring, ASCII lower case, decimal numerals, line splitting.
- `Types`: the parameter, progression and song-info records, and the object-spread update `Apply`.
- `ChordTables`: the three tables and `getFirstChordOptions`.
- `ChordTheory`: `generateChordProgression`.
- `MidiGenerator`: `generateMidiFile` up to the event list, with the writer's track as a class.
- `ProgressionDisplay`: `formatProgressionText`, the export text, the clipboard text and the downloads.
- `ProgressionControls`: the option lists and `updateParam` of the progression controls.
- `SongSettings`: `updateParam` of the song settings, with the warning state as a class.
- `SongInfoRules`: song names, tempo, sections, and the song-info texts.
- `ObeyinatorGenerator` and `MydytechGenerator`: the two generator components as classes.

Points where the code's behaviour is easy to misread, and which the model keeps as written:

- The borrowed suspended chords are the semitone-table symbols that contain "sus" and start with any vocabulary symbol, by case-sensitive prefix. So "I" admits "IIIsus2" and "IVsus4" (`PrefixMatchQuirk`), although the part before "sus" is not a vocabulary member.
- The "subV7" coin is evaluated whenever both FUCK MYDYTECH and borrowed/suspended are on, whether or not the suspended branch fired (`SubstituteOfferedIff`).
- An unknown scale type makes the source throw a TypeError. It does not produce an empty progression. The model returns `Err(UnknownScaleType)`.
- Eleven chords are laid out as lines of 4, 4 and 3 chords (`LongLayout`, `ElevenChords`).

## Model

| member | source | states |
|---|---|---|
| Common.RandomIndex | obey-inator/src/utils/chordTheory.ts:89 | `Math.floor(Math.random() * n)` is an index below n |
| Common.RandomIndexReaches | obey-inator/src/utils/chordTheory.ts:89 | every index below n is the floor of some draw times n |
| ChordTables.ScaleChords | obey-inator/src/utils/chordTheory.ts:4-10 | a vocabulary exists exactly for the five listed scale types, and each has at least 7 chords |
| ChordTables.ChordSemitones | obey-inator/src/utils/chordTheory.ts:13-66 | every mapped chord has 2 or 3 offsets, each in 0..17 |
| ChordTables.KeyToMidiOffset | obey-inator/src/utils/chordTheory.ts:69-82 | an offset exists exactly for the twelve keys, and lies in 60..71 |
| ChordTables.GetFirstChordOptions | obey-inator/src/utils/chordTheory.ts:129-131 | the vocabulary for a known scale type, `[]` for any other |
| ChordTables.AllSymbolsMapped | obey-inator/src/utils/chordTheory.ts:13-66 | every symbol in the table's key list has an entry |
| ChordTables.MappedSymbolDeclared | obey-inator/src/utils/chordTheory.ts:13-66 | every symbol with an entry is in the table's key list |
| ChordTables.ChordSymbolsAgree | obey-inator/src/utils/chordTheory.ts:13-66 | a symbol has offsets if and only if it is one of the table's keys |
| ChordTables.KeyOffsetsChromatic | obey-inator/src/utils/chordTheory.ts:69-82 | the i-th key is pitch 60 + i (C is middle C, one semitone per key) |
| ChordTables.VocabularyMapped | obey-inator/src/utils/chordTheory.ts:4-66 | a vocabulary chord has offsets if and only if it is not "iii+", which only Melodic minor uses |
| ChordTables.VocabularyExcludesSpecials | obey-inator/src/utils/chordTheory.ts:4-10 | no vocabulary contains "Any" or "subV7" |
| ChordTheory.BorrowedSuspended | obey-inator/src/utils/chordTheory.ts:95-98 | a symbol is borrowed exactly when it is a table key containing "sus" that starts with some vocabulary chord |
| ChordTheory.SuspendedCandidates | obey-inator/src/utils/chordTheory.ts:95-98 | the filter keeps exactly the symbols containing "sus" that start with some vocabulary chord |
| ChordTheory.ExtendingAny | obey-inator/src/utils/chordTheory.ts:105-107 | the filter keeps exactly the candidates that start with some base |
| ChordTheory.Without | obey-inator/src/utils/chordTheory.ts:117 | keeps exactly the options different from the previous chord |
| ChordTheory.StepOptions | obey-inator/src/utils/chordTheory.ts:101-113 | the option set of one iteration is never empty |
| ChordTheory.FinalOptions | obey-inator/src/utils/chordTheory.ts:116-120 | the final options are non-empty and drawn from the option set |
| ChordTheory.FirstChord | obey-inator/src/utils/chordTheory.ts:88-90 | "Any" resolves to a chord of the vocabulary; any other first chord is kept verbatim |
| ChordTheory.ChooseNext | obey-inator/src/utils/chordTheory.ts:116-123 | the chosen chord is one of the iteration's options |
| ChordTheory.NextChord | obey-inator/src/utils/chordTheory.ts:100-123 | the loop body picks the chord `ChooseNext` specifies for the same draws and previous chord |
| ChordTheory.ProgressionOf | obey-inator/src/utils/chordTheory.ts:92-124 | one chord per iteration after the seed chord, which stays at position 0 |
| ChordTheory.Generate | obey-inator/src/utils/chordTheory.ts:84-127 | an error naming the scale type exactly when it has no vocabulary; otherwise one chord per iteration plus the first |
| ChordTheory.GenerateChordProgression | obey-inator/src/utils/chordTheory.ts:84-127 | the loop returns what `Generate` specifies for the same draws |
| ChordTheory.ProgressionExtends | obey-inator/src/utils/chordTheory.ts:116-123 | each iteration pushes the chord chosen after the previous chord |
| ChordTheory.GenerateShape | obey-inator/src/utils/chordTheory.ts:84-127 | fails exactly for an unknown scale type; otherwise returns `length` chords (one when length <= 1), starting with the resolved first chord, which is the given one verbatim whenever it is not "Any" and a chord of the scale's vocabulary when it is "Any" |
| ChordTheory.ProgressionPrefix | obey-inator/src/utils/chordTheory.ts:100-124 | fewer iterations give a prefix of the progression: earlier chords never change |
| ChordTheory.ProgressionStep | obey-inator/src/utils/chordTheory.ts:100-124 | chord i is the choice of iteration i after chord i - 1 |
| ChordTheory.ChooseNextFromOptions | obey-inator/src/utils/chordTheory.ts:116-122 | the pick is an option, and equals the previous chord exactly when every option equals it |
| ChordTheory.AdjacentRepeatOnlyWhenForced | obey-inator/src/utils/chordTheory.ts:116-122 | two adjacent chords are equal exactly when every option of that iteration equals the earlier one |
| ChordTheory.StaysInVocabulary | obey-inator/src/utils/chordTheory.ts:101-112 | with borrowed/suspended off, every chord after the first is in the vocabulary |
| ChordTheory.ExtendingAnyKeepsAll | obey-inator/src/utils/chordTheory.ts:105-107 | the filter changes nothing when every candidate already starts with a base |
| ChordTheory.BorrowedCandidates | obey-inator/src/utils/chordTheory.ts:95-107 | a borrowed candidate is exactly a table key containing "sus" with a vocabulary chord as prefix; all have offsets; the re-filter leaves the list unchanged |
| ChordTheory.PrefixMatchQuirk | obey-inator/src/utils/chordTheory.ts:95-98 | Major's borrowed list contains "IIIsus2" and "IVsus4" |
| ChordTheory.SubstituteNotBorrowed | obey-inator/src/utils/chordTheory.ts:95-98 | "subV7" is never a borrowed candidate |
| ChordTheory.SubstituteOfferedIff | obey-inator/src/utils/chordTheory.ts:101-113 | "subV7" is offered exactly when both flags are on and its coin lands, whatever the suspended coin did |
| ChordTheory.ChordOrigins | obey-inator/src/utils/chordTheory.ts:100-124 | every later chord is from the vocabulary, the borrowed list or "subV7", and "subV7" needs both flags |
| ChordTheory.FullyMappedScales | obey-inator/src/utils/chordTheory.ts:4-66 | every vocabulary chord has offsets exactly for the scale types other than Melodic minor |
| ChordTheory.ProgressionMapped | obey-inator/src/utils/chordTheory.ts:100-124 | from a fully mapped vocabulary and a mapped first chord, every chord has offsets |
| ChordTheory.GeneratedChordsMapped | obey-inator/src/utils/chordTheory.ts:84-127 | outside Melodic minor, with "Any" or a mapped first chord, every generated chord has offsets |
| MidiGenerator.Track.constructor | src/utils/midiGenerator.ts:5 | a new track has no events |
| MidiGenerator.Track.AddEvent | src/utils/midiGenerator.ts:30 | appends the event at the end of the track |
| MidiGenerator.Clamp | src/utils/midiGenerator.ts:20 | the result is in 0..127; in-range pitches are unchanged, lower ones become 0 and higher ones 127 |
| MidiGenerator.NotePitch | src/utils/midiGenerator.ts:17-21 | NaN exactly for an unknown key; otherwise a pitch in 0..127, equal to offset + semitone whenever that sum is in range |
| MidiGenerator.Pitches | src/utils/midiGenerator.ts:17-21 | one pitch per semitone, in order, each the clamped sum with the key offset |
| MidiGenerator.ChordEvents | src/utils/midiGenerator.ts:12-32 | at most one note event per chord |
| MidiGenerator.MidiEventsOf | src/utils/midiGenerator.ts:4-33 | the track starts with program change 0 and holds at most one event per chord after it |
| MidiGenerator.GenerateMidiEvents | src/utils/midiGenerator.ts:4-33 | the track built by the loop is `MidiEventsOf(chords, key)`, a function of its inputs alone, and starts with program change 0 |
| MidiGenerator.MappedChords | src/utils/midiGenerator.ts:15 | keeps exactly the chords that have semitone offsets |
| MidiGenerator.EventsFollowMappedChords | src/utils/midiGenerator.ts:12-32 | one note event per mapped chord, in input order, carrying that chord's pitches |
| MidiGenerator.ChordEventsAppend | src/utils/midiGenerator.ts:12-32 | the events of two chord lists in a row are the events of each, in a row |
| MidiGenerator.UnmappedChordSkipped | src/utils/midiGenerator.ts:13-15 | removing an unmapped chord from the input leaves the events unchanged |
| MidiGenerator.EventsAreWholeNotes | src/utils/midiGenerator.ts:9-30 | program change 0 first, then one event per mapped chord, each with duration "1" and velocity 80 |
| MidiGenerator.ClampNeverBinds | src/utils/midiGenerator.ts:17-21 | for a known key and a mapped chord every pitch lies in 60..88, so the clamp changes nothing |
| MidiGenerator.CadenceEvents | src/utils/midiGenerator.ts:12-32 | at key offset 60, I, IV, V, I give four whole-note events with the C-major triads of those degrees |
| MidiGenerator.CMajorCadence | src/utils/midiGenerator.ts:6-21 | I, IV, V, I in C gives [60,64,67], [65,69,72], [67,71,74], [60,64,67] |
| Strings.ToLower | obey-inator/src/components/ChordProgressionDisplay.tsx:36 | same length, each character lowered |
| Strings.ToLowerIdempotent | obey-inator/src/components/ChordProgressionDisplay.tsx:36 | lowering twice is lowering once |
| Strings.IncludesIffOccurs | obey-inator/src/utils/chordTheory.ts:96 | `includes` holds exactly when the pattern occurs at some position |
| Strings.DecimalRoundTrip | obey-inator/src/components/SongInfoDisplay.tsx:15 | reading back a natural number's decimal digits gives the number |
| Strings.IntToDecimal | obey-inator/src/components/SongInfoDisplay.tsx:15 | an integer's text is non-empty, and all digits exactly when the integer is not negative |
| Strings.LinesOfJoinLines | obey-inator/src/components/SongInfoDisplay.tsx:12-16 | splitting lines joined by newlines gives the lines back |
| Strings.LinesJoin | obey-inator/src/components/ChordProgressionDisplay.tsx:12-16 | the lines of `a + "\n" + b` are the lines of a followed by those of b |
| Strings.CountChar | obey-inator/src/components/ChordProgressionDisplay.tsx:126 | the count is zero exactly when the character is absent |
| Strings.LinesShape | obey-inator/src/components/ChordProgressionDisplay.tsx:126 | splitting on newlines gives one line more than there are newlines, and no line contains a newline |
| ProgressionDisplay.FormatProgressionText | obey-inator/src/components/ChordProgressionDisplay.tsx:112-133 | the loop's text is the chords joined by " - " up to 8 chords, and above 8 each chord but the last followed by its separator |
| ProgressionDisplay.LineSeparators | obey-inator/src/components/ChordProgressionDisplay.tsx:122-130 | the separator after chord i is " -\n" when (i+1) % 4 == 0, " - " otherwise, and nothing after the last chord |
| ProgressionDisplay.FormattedText | obey-inator/src/components/ChordProgressionDisplay.tsx:112-133 | both branches are the input chords, in order, each followed by its separator: " - " between chords, " -\n" after every fourth chord of a long progression, nothing after the last |
| ProgressionDisplay.WeaveUniform | obey-inator/src/components/ChordProgressionDisplay.tsx:114 | interleaving with one repeated separator is the join plus that separator at the end |
| ProgressionDisplay.WeaveWithoutSeparators | obey-inator/src/components/ChordProgressionDisplay.tsx:120-121 | with empty separators the text is the plain concatenation of the chords |
| ProgressionDisplay.WeaveLength | obey-inator/src/components/ChordProgressionDisplay.tsx:120-130 | the text is the chords plus 3 characters per separator |
| ProgressionDisplay.SeparatorsOnlyBetweenChords | obey-inator/src/components/ChordProgressionDisplay.tsx:120-130 | the text is the chords woven with their separators: each of the n - 1 separators between chords is 3 characters, there is none after the last chord, so the text is the chords' concatenation plus 3(n - 1) characters, and with the separators emptied it is exactly that concatenation |
| ProgressionDisplay.EndsWithLastChord | obey-inator/src/components/ChordProgressionDisplay.tsx:121-122 | the text ends with the last chord: no trailing separator |
| ProgressionDisplay.LineBreaksBefore | obey-inator/src/components/ChordProgressionDisplay.tsx:125-127 | the first k chords of a long progression, with their separators, hold k/4 line breaks, and the whole text (n-1)/4 |
| ProgressionDisplay.LineBreakCount | obey-inator/src/components/ChordProgressionDisplay.tsx:125-127 | above 8 chords the text has (n-1)/4 newlines, otherwise none |
| ProgressionDisplay.LineBreaksShort | obey-inator/src/components/ChordProgressionDisplay.tsx:113-115 | with 8 or fewer chords the separators add no line break |
| ProgressionDisplay.LongLayout | obey-inator/src/components/ChordProgressionDisplay.tsx:120-131 | above 8 chords the lines are groups of 4 chords from the front, each line but the last ending in " -", the last holding the remainder |
| ProgressionDisplay.ElevenChords | obey-inator/src/components/ChordProgressionDisplay.tsx:125-129 | 11 chords give three lines of 4, 4 and 3 chords, the first two ending in " -" |
| ProgressionDisplay.ExportTextLines | obey-inator/src/components/ChordProgressionDisplay.tsx:30-34 | the export text reads: song line, key and scale line, progression line(s), a blank line, "Generated with Obey-inator" |
| ProgressionDisplay.ExportText | obey-inator/src/components/ChordProgressionDisplay.tsx:30-34 | the text starts with the song line and ends with a blank line and "Generated with Obey-inator" |
| ProgressionDisplay.ClipboardText | obey-inator/src/components/ChordProgressionDisplay.tsx:12-16 | the export text with a progression; "No progression to copy" exactly when there is none |
| ProgressionDisplay.TextFileName | obey-inator/src/components/ChordProgressionDisplay.tsx:36-42 | "chord-progression-" ... ".txt", 23 characters longer than key and scale type together |
| ProgressionDisplay.MidiFileName | obey-inator/src/components/ChordProgressionDisplay.tsx:54-55 | the song name and "-" ... ".mid", 6 characters longer than song name, key and scale type together |
| ProgressionDisplay.FileNamesShareStem | obey-inator/src/components/ChordProgressionDisplay.tsx:36-55 | "chord-progression-<key>-<lower-case scale>.txt" and "<song name>-<key>-<lower-case scale>.mid" |
| ProgressionDisplay.TextDownload | obey-inator/src/components/ChordProgressionDisplay.tsx:27-46 | a file exactly when there is a progression, holding the clipboard text, named ".txt" |
| ProgressionDisplay.MidiDownload | obey-inator/src/components/ChordProgressionDisplay.tsx:49-55 | a file exactly when there is a progression, holding the events of its chords in its key, named after the song, ".mid" |
| Types.Apply | obey-inator/src/components/ChordProgressionControls.tsx:18 | the spread copy `{ ...params, [key]: value }`: the named field takes the new value and every other field keeps its old one |
| ProgressionControls.OptionListsMatchTables | obey-inator/src/components/ChordProgressionControls.tsx:12-13 | the selectable scale types and keys are exactly the tables' keys, in table order |
| ProgressionControls.DefaultFirstChord | obey-inator/src/components/ChordProgressionControls.tsx:22 | the first option, or '' when there is none |
| ProgressionControls.UpdateParam | obey-inator/src/components/ChordProgressionControls.tsx:17-26 | the spread copy with the named field set; only the first chord may differ from it |
| ProgressionControls.OtherUpdatesKeepFirstChord | obey-inator/src/components/ChordProgressionControls.tsx:18-21 | any update but a scale change is the plain copy, and keeps the first chord unless it sets it |
| ProgressionControls.ScaleChangeFirstChord | obey-inator/src/components/ChordProgressionControls.tsx:20-23 | on a scale change the first chord is kept exactly when the new scale offers it, else it becomes the first option or '' |
| ProgressionControls.ScaleChangeLeavesValidFirstChord | obey-inator/src/components/ChordProgressionControls.tsx:20-23 | after a change to a listed scale the first chord is offered by it; after any other scale it is '' |
| ProgressionControls.AnyNeverOffered | obey-inator/src/components/ChordProgressionControls.tsx:15 | "Any" is never among the first-chord options |
| SongSettings.SongSettingsControls.constructor | src/components/SongSettingsControls.tsx:10-11 | no warning text and the warning hidden |
| SongSettings.SongSettingsControls.UpdateParam | src/components/SongSettingsControls.tsx:25-51 | returns the updated parameters; a refused time signature raises the warning text and flag, anything else leaves them |
| SongSettings.SettingsUpdate | src/components/SongSettingsControls.tsx:25-51 | the spread copy with the named field set, except that a tempo-limit update leaves the limits at least 10 apart, other updates keep both limits, and a time signature is stored only with FUCK MYDYTECH on ("4/4" otherwise) |
| SongSettings.OtherFieldsOnly | src/components/SongSettingsControls.tsx:26 | updates other than tempo limits and time signature are the plain copy |
| SongSettings.UpperLimitRule | src/components/SongSettingsControls.tsx:29-34 | an upper limit at least lower + 10 changes only that field; a smaller one sets upper to the old lower + 10 and lower to value - 10 |
| SongSettings.LowerLimitRule | src/components/SongSettingsControls.tsx:35-40 | a lower limit at most upper - 10 changes only that field; a larger one sets lower to the old upper - 10 and upper to value + 10 |
| SongSettings.TempoGapAfterUpdate | src/components/SongSettingsControls.tsx:28-41 | after any tempo-limit update the limits are at least 10 apart |
| SongSettings.TempoGapPreserved | src/components/SongSettingsControls.tsx:25-51 | limits 10 apart stay 10 apart under every update |
| SongSettings.TimeSignatureRule | src/components/SongSettingsControls.tsx:43-48 | with FUCK MYDYTECH off the time signature ends at "4/4"; with it on it is stored verbatim; no other field changes |
| SongInfoRules.RandomElement | src/components/ChordProgressionGenerator.tsx:84 | the drawn character is from the array |
| SongInfoRules.RandomDigit | src/components/ChordProgressionGenerator.tsx:93 | the drawn character is a decimal digit |
| SongInfoRules.SongName | src/components/ChordProgressionGenerator.tsx:80-97 | consonant, vowel three times over, then three digits |
| SongInfoRules.ElementReachable | src/components/ChordProgressionGenerator.tsx:84 | every element of the array is drawn by some draw |
| SongInfoRules.DigitReachable | src/components/ChordProgressionGenerator.tsx:93 | every digit is drawn by some draw |
| SongInfoRules.EveryWellFormedNameDrawn | src/components/ChordProgressionGenerator.tsx:80-97 | every name of that shape is produced by some draws |
| SongInfoRules.DrawTempo | src/components/ChordProgressionGenerator.tsx:110 | the tempo lies between the limits when lower <= upper |
| SongInfoRules.EveryTempoDrawn | src/components/ChordProgressionGenerator.tsx:110 | every tempo between the limits is drawn by some draw |
| SongInfoRules.CeilDiv16 | src/components/ChordProgressionGenerator.tsx:112 | the ceiling of x / 16: 16(q - 1) < x <= 16q |
| SongInfoRules.FourBarSections | src/components/ChordProgressionGenerator.tsx:112 | the ceiling of songLength * tempo / 16 |
| SongInfoRules.GenerateSongInfo | obey-inator/src/components/SongInfoDisplay.tsx:53-83 | length and time signature copied, tempo between the limits, sections the ceiling of length * tempo / 16, a well-formed name, the given timestamp |
| SongInfoRules.GenerateSongInfoChecked | src/components/ChordProgressionGenerator.tsx:109-141 | sections are a count exactly in 4/4, "N/A" otherwise; length and time signature copied |
| SongInfoRules.CheckedAgreesInFourFour | src/components/ChordProgressionGenerator.tsx:111-113 | in 4/4 both song-info handlers agree; outside it they differ only in the sections |
| SongInfoRules.DisplayedSongInfo | obey-inator/src/components/SongInfoDisplay.tsx:86 | the generated info when there is one, else a fresh default |
| SongInfoRules.LengthUnit | obey-inator/src/components/SongInfoDisplay.tsx:13 | "minute" exactly when the length is 1, "minutes" otherwise |
| SongInfoRules.SectionsText | obey-inator/src/components/SongInfoDisplay.tsx:16 | "N/A" exactly for non-applicable sections; a non-negative count is written in decimal digits |
| SongInfoRules.InfoText | obey-inator/src/components/SongInfoDisplay.tsx:12-16 | the text starts with "Song: " and the song name |
| SongInfoRules.InfoClipboardText | obey-inator/src/components/SongInfoDisplay.tsx:11-16 | the five-line text with info; "No song info to copy" exactly when there is none |
| SongInfoRules.PlaceholderUnreachable | obey-inator/src/components/SongInfoDisplay.tsx:12-16 | the displayed info never yields the placeholder |
| SongInfoRules.InfoTextLines | obey-inator/src/components/SongInfoDisplay.tsx:12-16 | the text splits into exactly the five labelled lines |
| SongInfoRules.InfoDownloadText | obey-inator/src/components/SongInfoDisplay.tsx:30-38 | the download text is the clipboard text, a blank line, the MYDYTECH rights notice, a blank line and "TERMS WILL BE ENFORCED" |
| SongInfoRules.InfoFileName | obey-inator/src/components/SongInfoDisplay.tsx:40-46 | "song-info-<song name>.txt": the song name sits between the prefix and the suffix |
| SongInfoRules.InfoDownload | obey-inator/src/components/SongInfoDisplay.tsx:27-46 | "song-info-<song name>.txt", holding exactly the clipboard text, a blank line and the footer |
| SongInfoRules.InfoDownloadLines | obey-inator/src/components/SongInfoDisplay.tsx:30-38 | the downloaded file splits into the five labelled lines, a blank line, the notice, a blank line and "TERMS WILL BE ENFORCED" |
| ObeyinatorGenerator.ChordProgressionGenerator.constructor | obey-inator/src/components/ChordProgressionGenerator.tsx:11-24 | the initial parameters and nothing generated |
| ObeyinatorGenerator.ChordProgressionGenerator.SetParams | obey-inator/src/components/ChordProgressionGenerator.tsx:103 | replaces the parameters and nothing else |
| ObeyinatorGenerator.ChordProgressionGenerator.HandleGenerate | obey-inator/src/components/ChordProgressionGenerator.tsx:47-55 | stores the generated chords, the parameters and a fresh name; a failed generation stores nothing |
| ObeyinatorGenerator.ChordProgressionGenerator.HandleGenerateSongInfo | obey-inator/src/components/ChordProgressionGenerator.tsx:57-87 | stores the song info for the current parameters and changes nothing else |
| ObeyinatorGenerator.InitialParamsConsistent | obey-inator/src/components/ChordProgressionGenerator.tsx:11-21 | the initial limits are 10 apart, the first chord is offered by the scale, the time is 4/4 and the key is known |
| ObeyinatorGenerator.StoredProgressionShape | obey-inator/src/components/ChordProgressionGenerator.tsx:47-55 | a stored progression has `length` chords, its parameters and a well-formed name |
| MydytechGenerator.ChordProgressionGenerator.constructor | src/components/ChordProgressionGenerator.tsx:23-46 | the initial parameters, nothing generated, FUCK MYDYTECH off |
| MydytechGenerator.ChordProgressionGenerator.HandleParamsChange | src/components/ChordProgressionGenerator.tsx:38-41 | the parameters replaced wholesale and passed on |
| MydytechGenerator.ChordProgressionGenerator.HandleFuckMyDytechChange | src/components/ChordProgressionGenerator.tsx:73-78 | only the FUCK MYDYTECH field changes, the flag mirrors it, and the new parameters are passed on |
| MydytechGenerator.ChordProgressionGenerator.HandleGenerate | src/components/ChordProgressionGenerator.tsx:99-107 | stores the generated chords, the parameters and a fresh name; a failed generation stores nothing |
| MydytechGenerator.ChordProgressionGenerator.HandleGenerateSongInfo | src/components/ChordProgressionGenerator.tsx:109-141 | stores the song info with "N/A" sections outside 4/4 and changes nothing else |

## Left out

- Random numbers are supplied draws, not generated. The callers of the generator supply at least one step draw per loop iteration.
- `Date.now()` is the parameter `now` of the song-info functions.
- `downloadMidiFile` and the Blob, URL and anchor download code: DOM I/O. The downloads are modelled as the file name and contents they would save.
- `navigator.clipboard`, `alert` and console output: I/O. The clipboard is modelled as the text it would receive, whether or not the write succeeds.
- The binary MIDI file written by `midi-writer-js` (`MidiWriter.Writer`, `dataUri`): a foreign library whose code is not part of this model. The model ends at the event list. The source declares `Uint8Array` as its return type but returns the writer's data URI string.
- React lifecycle: the `useEffect` blocks syncing external parameters and the FUCK MYDYTECH checkbox, the 2000 ms timer that hides the settings warning, and the show-tools toggles.
- `src/utils/chordTheory.ts`, imported by `src/utils/midiGenerator.ts` and the `src/` generator, is not part of this model. The tables of `obey-inator/src/utils/chordTheory.ts` stand in for it.
- `src/components/SongInfoDisplay.tsx` is not part of this model.
- `obey-inator/src/utils/midiGenerator.ts`, which `obey-inator/src/components/ChordProgressionDisplay.tsx:3` imports, is not part of this model. `ProgressionDisplay.MidiDownload` uses the event list of `src/utils/midiGenerator.ts` in its place, so the MIDI download holds that file's events.
- The table lookups see only the tables' own entries. In JavaScript, indexing an object literal also finds inherited `Object.prototype` keys such as "toString" or "constructor": `getFirstChordOptions("toString")` then returns a function, whose missing `.includes` makes `updateParam` throw (`obey-inator/src/components/ChordProgressionControls.tsx:21`), and a chord named "constructor" makes `CHORD_SEMITONES[chord].map` throw in `generateMidiFile`. The model returns `[]` for such a scale type and skips such a chord. The select controls offer only table keys, so these names cannot be chosen in the interface.
- SongInfoRules.InfoDownloadLines: states the rights notice as `Lines(FooterNotice)` rather than spelling out its single line.
- The tables are immutable constants and option sets are values, so "subV7" is appended to a copy and never to a table.
- Strings.ToLower: lowers ASCII letters only, not the full Unicode case mapping of `toLowerCase`.
- JavaScript numbers are unbounded integers here. A NaN from a non-numeric control value and floating-point rounding are not modelled.
- ChordTheory.GenerateChordProgression: an unknown scale type is `Err(UnknownScaleType)` rather than a thrown TypeError, and the generator handlers then leave their state unchanged, as they do when the source throws.
- MidiGenerator.Pitches: an unknown key gives `Pitch.NotANumber` for every pitch, the NaN that `undefined + semitone` yields in the source. The model does not say how the writer would encode it.

/** The records the components pass around (the shapes of `src/types/chords.ts`,
    which carries the tempo, time-signature and FUCK MYDYTECH fields). */
module Types {

  /** The parameter object shared by the controls and the generator. The
      optional `fuckMyDytech` flag is `false` where the source leaves it unset. */
  datatype Params = Params(
    scaleType: string,
    key: string,
    length: int,
    allowBorrowedSuspended: bool,
    firstChord: string,
    upperTempoLimit: int,
    lowerTempoLimit: int,
    songLength: int,
    timeSignature: string,
    fuckMyDytech: bool)

  /** A generated progression with a snapshot of the parameters it came from. */
  datatype ChordProgression = ChordProgression(chords: seq<string>, params: Params, songName: string)

  /** `fourBarSections: number | string`: a count, or the string "N/A". */
  datatype Sections = Count(count: int) | NotApplicable

  datatype SongInfo = SongInfo(
    songName: string,
    songLength: int,
    timeSignature: string,
    tempo: int,
    fourBarSections: Sections,
    timestamp: int)

  /** One call `updateParam(key, value)`: the field named and its new value. */
  datatype ParamUpdate =
    | SetScaleType(scaleType: string)
    | SetKey(key: string)
    | SetLength(length: int)
    | SetAllowBorrowedSuspended(allow: bool)
    | SetFirstChord(firstChord: string)
    | SetUpperTempoLimit(upper: int)
    | SetLowerTempoLimit(lower: int)
    | SetSongLength(songLength: int)
    | SetTimeSignature(timeSignature: string)
    | SetFuckMyDytech(enabled: bool)

  /** `{ ...params, [key]: value }`: a copy of `p` with the one named field replaced. */
  function Apply(p: Params, u: ParamUpdate): (r: Params)
    ensures r.scaleType == (if u.SetScaleType? then u.scaleType else p.scaleType)
    ensures r.key == (if u.SetKey? then u.key else p.key)
    ensures r.length == (if u.SetLength? then u.length else p.length)
    ensures r.allowBorrowedSuspended == (if u.SetAllowBorrowedSuspended? then u.allow else p.allowBorrowedSuspended)
    ensures r.firstChord == (if u.SetFirstChord? then u.firstChord else p.firstChord)
    ensures r.upperTempoLimit == (if u.SetUpperTempoLimit? then u.upper else p.upperTempoLimit)
    ensures r.lowerTempoLimit == (if u.SetLowerTempoLimit? then u.lower else p.lowerTempoLimit)
    ensures r.songLength == (if u.SetSongLength? then u.songLength else p.songLength)
    ensures r.timeSignature == (if u.SetTimeSignature? then u.timeSignature else p.timeSignature)
    ensures r.fuckMyDytech == (if u.SetFuckMyDytech? then u.enabled else p.fuckMyDytech)
  {
    match u
    case SetScaleType(v) => p.(scaleType := v)
    case SetKey(v) => p.(key := v)
    case SetLength(v) => p.(length := v)
    case SetAllowBorrowedSuspended(v) => p.(allowBorrowedSuspended := v)
    case SetFirstChord(v) => p.(firstChord := v)
    case SetUpperTempoLimit(v) => p.(upperTempoLimit := v)
    case SetLowerTempoLimit(v) => p.(lowerTempoLimit := v)
    case SetSongLength(v) => p.(songLength := v)
    case SetTimeSignature(v) => p.(timeSignature := v)
    case SetFuckMyDytech(v) => p.(fuckMyDytech := v)
  }

  /** The initial parameters of both generator components: Major in C, four
      chords starting on I, 80 to 120 BPM, four minutes in 4/4. */
  const InitialParams: Params := Params(
    scaleType := "Major",
    key := "C",
    length := 4,
    allowBorrowedSuspended := false,
    firstChord := "I",
    upperTempoLimit := 120,
    lowerTempoLimit := 80,
    songLength := 4,
    timeSignature := "4/4",
    fuckMyDytech := false)
}

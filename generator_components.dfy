/** The generator component of `obey-inator/`: the parameters, the last
    progression and the last song info, updated by its handlers. */
module ObeyinatorGenerator {
  import opened Common
  import opened Types
  import opened ChordTables
  import opened ChordTheory
  import opened SongInfoRules

  class ChordProgressionGenerator {
    var params: Params
    var progression: Option<ChordProgression>
    var generatedSongInfo: Option<SongInfo>

    /** The initial state: the initial parameters and nothing generated. */
    constructor()
      ensures params == InitialParams && progression == None && generatedSongInfo == None
    {
      params := InitialParams;
      progression := None;
      generatedSongInfo := None;
    }

    /** `setParams`, the callback both control panels receive. */
    method SetParams(newParams: Params)
      modifies this
      ensures params == newParams
      ensures progression == old(progression) && generatedSongInfo == old(generatedSongInfo)
    {
      params := newParams;
    }

    /** `handleGenerate`: the generated chords, a copy of the parameters and a
        fresh song name. When the generator fails (an unknown scale type) the
        handler throws before storing anything. */
    method HandleGenerate(firstDraw: Draw, steps: seq<StepDraw>, name: NameDraws)
      returns (outcome: Result<seq<string>, GenerationError>)
      requires |steps| >= StepCount(params.length)
      modifies this
      ensures outcome == Generate(old(params), firstDraw, steps)
      ensures outcome.Ok? ==> progression == Some(ChordProgression(outcome.value, params, SongName(name)))
      ensures outcome.Err? ==> progression == old(progression)
      ensures params == old(params) && generatedSongInfo == old(generatedSongInfo)
    {
      outcome := GenerateChordProgression(params, firstDraw, steps);
      if outcome.Ok? {
        var songName := SongName(name);
        progression := Some(ChordProgression(outcome.value, params, songName));
      }
    }

    /** `handleGenerateSongInfo`: a song-info record for the current parameters. */
    method HandleGenerateSongInfo(d: SongInfoDraws, now: int)
      modifies this
      ensures generatedSongInfo == Some(GenerateSongInfo(params, d, now))
      ensures params == old(params) && progression == old(progression)
    {
      generatedSongInfo := Some(GenerateSongInfo(params, d, now));
    }
  }

  /** The initial parameters keep the tempo limits 10 apart, start on a chord
      the initial scale offers, and are in 4/4. */
  lemma InitialParamsConsistent()
    ensures InitialParams.upperTempoLimit - InitialParams.lowerTempoLimit >= 10
    ensures InitialParams.firstChord in GetFirstChordOptions(InitialParams.scaleType)
    ensures InitialParams.timeSignature == "4/4" && InitialParams.key in KeyNames
  {
    assert GetFirstChordOptions("Major")[0] == "I";
  }

  /** A stored progression has as many chords as its parameters ask for
      (at least one), the parameters it was generated from, and a well-formed
      name. */
  lemma StoredProgressionShape(params: Params, firstDraw: Draw, steps: seq<StepDraw>, name: NameDraws)
    requires |steps| >= StepCount(params.length)
    requires Generate(params, firstDraw, steps).Ok?
    ensures var pr := ChordProgression(Generate(params, firstDraw, steps).value, params, SongName(name));
      |pr.chords| == (if params.length >= 1 then params.length else 1) &&
      pr.params == params && WellFormedSongName(pr.songName)
  {
    GenerateShape(params, firstDraw, steps);
  }
}

/** The generator component of `src/`: as above, with the FUCK MYDYTECH switch
    and a song-info handler that reports "N/A" sections outside 4/4. */
module MydytechGenerator {
  import opened Common
  import opened Types
  import opened ChordTheory
  import opened SongInfoRules

  class ChordProgressionGenerator {
    var params: Params
    var progression: Option<ChordProgression>
    var generatedSongInfo: Option<SongInfo>
    var fuckMyDytechEnabled: bool

    constructor()
      ensures params == InitialParams && progression == None && generatedSongInfo == None
      ensures !fuckMyDytechEnabled
    {
      params := InitialParams;
      progression := None;
      generatedSongInfo := None;
      fuckMyDytechEnabled := false;
    }

    /** `handleParamsChange`: the parameters replaced wholesale; the result
        is what `onParamsChange` is told. */
    method HandleParamsChange(newParams: Params) returns (notified: Params)
      modifies this
      ensures params == newParams && notified == newParams
      ensures progression == old(progression) && generatedSongInfo == old(generatedSongInfo)
      ensures fuckMyDytechEnabled == old(fuckMyDytechEnabled)
    {
      params := newParams;
      notified := newParams;
    }

    /** `handleFuckMyDytechChange`: only the switch changes, in the parameters
        and in the mirrored flag; the result is what `onParamsChange` is told. */
    method HandleFuckMyDytechChange(enabled: bool) returns (notified: Params)
      modifies this
      ensures params == old(params).(fuckMyDytech := enabled) && fuckMyDytechEnabled == enabled
      ensures notified == params
      ensures progression == old(progression) && generatedSongInfo == old(generatedSongInfo)
    {
      params := params.(fuckMyDytech := enabled);
      fuckMyDytechEnabled := enabled;
      notified := params;
    }

    /** `handleGenerate`, as in the other component. */
    method HandleGenerate(firstDraw: Draw, steps: seq<StepDraw>, name: NameDraws)
      returns (outcome: Result<seq<string>, GenerationError>)
      requires |steps| >= StepCount(params.length)
      modifies this
      ensures outcome == Generate(old(params), firstDraw, steps)
      ensures outcome.Ok? ==> progression == Some(ChordProgression(outcome.value, params, SongName(name)))
      ensures outcome.Err? ==> progression == old(progression)
      ensures params == old(params) && generatedSongInfo == old(generatedSongInfo)
      ensures fuckMyDytechEnabled == old(fuckMyDytechEnabled)
    {
      outcome := GenerateChordProgression(params, firstDraw, steps);
      if outcome.Ok? {
        var songName := SongName(name);
        progression := Some(ChordProgression(outcome.value, params, songName));
      }
    }

    /** `handleGenerateSongInfo` with the time-signature check. */
    method HandleGenerateSongInfo(d: SongInfoDraws, now: int)
      modifies this
      ensures generatedSongInfo == Some(GenerateSongInfoChecked(params, d, now))
      ensures params == old(params) && progression == old(progression)
      ensures fuckMyDytechEnabled == old(fuckMyDytechEnabled)
    {
      generatedSongInfo := Some(GenerateSongInfoChecked(params, d, now));
    }
  }
}

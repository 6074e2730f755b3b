/** `generateChordProgression`: the chord-progression generator. The loop of
    the source is the method `GenerateChordProgression`; the functions before
    it say what one iteration computes, and `ProgressionOf` what the whole loop
    computes, so that the lemmas after it can state the generator's promises. */
module ChordTheory {
  import opened Common
  import opened Strings
  import opened Types
  import opened ChordTables

  /** The values of `Math.random()` one iteration of the loop may read: the
      suspended-chord coin, the tritone-substitute coin and the final pick.
      A coin the source does not evaluate (its flag is off) is ignored. */
  datatype StepDraw = StepDraw(sus: Draw, sub: Draw, pick: Draw)

  /** The source throws a TypeError when `SCALE_CHORDS[scaleType]` is undefined. */
  datatype GenerationError = UnknownScaleType(scaleType: string)

  /** `bases.some(base => chord.startsWith(base))` */
  predicate ExtendsSome(chord: string, bases: seq<string>)
  {
    exists i :: 0 <= i < |bases| && StartsWith(chord, bases[i])
  }

  /** The filter of lines 95-98: the symbols that contain "sus" and start
      with a symbol of the vocabulary. */
  function SuspendedCandidates(symbols: seq<string>, vocab: seq<string>): (r: seq<string>)
    ensures forall c :: c in r <==> c in symbols && Includes(c, "sus") && ExtendsSome(c, vocab)
    ensures |r| <= |symbols|
  {
    if symbols == [] then []
    else
      var head := if Includes(symbols[0], "sus") && ExtendsSome(symbols[0], vocab) then [symbols[0]] else [];
      head + SuspendedCandidates(symbols[1..], vocab)
  }

  /** `borrowedSuspendedChords`, computed once before the loop. */
  function BorrowedSuspended(vocab: seq<string>): (r: seq<string>)
    ensures forall c :: c in r <==> c in ChordSymbols && Includes(c, "sus") && ExtendsSome(c, vocab)
  {
    SuspendedCandidates(ChordSymbols, vocab)
  }

  /** The re-filter of lines 105-107: the candidates that start with one of `bases`. */
  function ExtendingAny(candidates: seq<string>, bases: seq<string>): (r: seq<string>)
    ensures forall c :: c in r <==> c in candidates && ExtendsSome(c, bases)
    ensures |r| <= |candidates|
  {
    if candidates == [] then []
    else
      var head := if ExtendsSome(candidates[0], bases) then [candidates[0]] else [];
      head + ExtendingAny(candidates[1..], bases)
  }

  /** `options.filter(chord => chord !== previous)` */
  function Without(options: seq<string>, previous: string): (r: seq<string>)
    ensures forall c :: c in r <==> c in options && c != previous
    ensures |r| <= |options|
  {
    if options == [] then []
    else (if options[0] != previous then [options[0]] else []) + Without(options[1..], previous)
  }

  /** `chordOptions` after lines 101-113: the vocabulary, replaced by the
      suspended candidates on the first coin, with "subV7" appended on the second. */
  function StepOptions(vocab: seq<string>, p: Params, d: StepDraw): (r: seq<string>)
    ensures vocab != [] ==> r != []
  {
    var borrowed := BorrowedSuspended(vocab);
    var options :=
      if p.allowBorrowedSuspended && FivePercent(d.sus) && |borrowed| > 0
      then ExtendingAny(borrowed, vocab) else vocab;
    assert |borrowed| > 0 ==> borrowed[0] in ExtendingAny(borrowed, vocab);
    if p.fuckMyDytech && p.allowBorrowedSuspended && FivePercent(d.sub)
    then options + ["subV7"] else options
  }

  /** `finalOptions` (lines 116-120): the options without the previous chord,
      or all of them when that would leave nothing. */
  function FinalOptions(options: seq<string>, previous: string): (r: seq<string>)
    ensures options != [] ==> r != []
    ensures forall c :: c in r ==> c in options
  {
    var filtered := Without(options, previous);
    if |filtered| > 0 then filtered else options
  }

  /** Every option equals `x`: removing `x` would leave nothing. */
  predicate AllEqualTo(options: seq<string>, x: string)
  {
    forall c :: c in options ==> c == x
  }

  /** The chord pushed by one iteration (lines 122-123). */
  function ChooseNext(vocab: seq<string>, p: Params, d: StepDraw, previous: string): (c: string)
    requires vocab != []
    ensures c in StepOptions(vocab, p, d)
  {
    var options := FinalOptions(StepOptions(vocab, p, d), previous);
    options[RandomIndex(d.pick, |options|)]
  }

  /** Position 0 (lines 88-90): the given first chord verbatim, or a draw
      from the vocabulary when it is "Any". */
  function FirstChord(vocab: seq<string>, p: Params, r: Draw): (c: string)
    requires vocab != []
    ensures p.firstChord == "Any" ==> c in vocab
    ensures p.firstChord != "Any" ==> c == p.firstChord
  {
    if p.firstChord == "Any" then vocab[RandomIndex(r, |vocab|)] else p.firstChord
  }

  /** The progression after one iteration per step draw. */
  function ProgressionOf(vocab: seq<string>, p: Params, first: string, steps: seq<StepDraw>): (r: seq<string>)
    requires vocab != []
    ensures |r| == |steps| + 1 && r[0] == first
    decreases |steps|
  {
    if steps == [] then [first]
    else
      var prior := ProgressionOf(vocab, p, first, steps[..|steps| - 1]);
      prior + [ChooseNext(vocab, p, steps[|steps| - 1], prior[|prior| - 1])]
  }

  /** The number of iterations of `for (let i = 1; i < length; i++)`. */
  function StepCount(length: int): nat
  {
    if length > 1 then length - 1 else 0
  }

  /** What `generateChordProgression(params)` returns for the given draws. */
  function Generate(p: Params, firstDraw: Draw, steps: seq<StepDraw>): (r: Result<seq<string>, GenerationError>)
    requires |steps| >= StepCount(p.length)
    ensures r.Err? <==> ScaleChords(p.scaleType).None?
    ensures r.Err? ==> r.error == UnknownScaleType(p.scaleType)
    ensures r.Ok? ==> |r.value| == StepCount(p.length) + 1
  {
    match ScaleChords(p.scaleType)
    case None => Err(UnknownScaleType(p.scaleType))
    case Some(vocab) => Ok(ProgressionOf(vocab, p, FirstChord(vocab, p, firstDraw), steps[..StepCount(p.length)]))
  }

  /** `generateChordProgression(params)`: `firstDraw` is the draw of line 89
      and `steps[i - 1]` the draws of iteration `i`. */
  method GenerateChordProgression(p: Params, firstDraw: Draw, steps: seq<StepDraw>)
    returns (r: Result<seq<string>, GenerationError>)
    requires |steps| >= StepCount(p.length)
    ensures r == Generate(p, firstDraw, steps)
  {
    var scaleChords := ScaleChords(p.scaleType);
    if scaleChords.None? {
      return Err(UnknownScaleType(p.scaleType));
    }
    var availableChords := scaleChords.value;
    var firstChord := if p.firstChord == "Any"
      then availableChords[RandomIndex(firstDraw, |availableChords|)]
      else p.firstChord;
    assert firstChord == FirstChord(availableChords, p, firstDraw);
    var progression := [firstChord];
    var borrowedSuspendedChords := BorrowedSuspended(availableChords);
    var i := 1;
    while i < p.length
      invariant 1 <= i <= StepCount(p.length) + 1
      invariant progression == ProgressionOf(availableChords, p, firstChord, steps[..i - 1])
    {
      var randomChord := NextChord(availableChords, borrowedSuspendedChords, p, steps[i - 1], progression[i - 1]);
      ProgressionExtends(availableChords, p, firstChord, steps, i - 1);
      assert ProgressionOf(availableChords, p, firstChord, steps[..i]) == progression + [randomChord];
      progression := progression + [randomChord];
      i := i + 1;
    }
    assert i - 1 == StepCount(p.length);
    assert progression == ProgressionOf(availableChords, p, firstChord, steps[..StepCount(p.length)]);
    r := Ok(progression);
  }

  /** The body of one iteration (lines 100-123): the options, the filter
      against the previous chord and the pick. */
  method NextChord(availableChords: seq<string>, borrowedSuspendedChords: seq<string>, p: Params,
                   d: StepDraw, previousChord: string)
    returns (randomChord: string)
    requires availableChords != [] && borrowedSuspendedChords == BorrowedSuspended(availableChords)
    ensures randomChord == ChooseNext(availableChords, p, d, previousChord)
  {
    var chordOptions := availableChords;
    if p.allowBorrowedSuspended && FivePercent(d.sus) && |borrowedSuspendedChords| > 0 {
      chordOptions := ExtendingAny(borrowedSuspendedChords, chordOptions);
    }
    if p.fuckMyDytech && p.allowBorrowedSuspended && FivePercent(d.sub) {
      chordOptions := chordOptions + ["subV7"];
    }
    assert chordOptions == StepOptions(availableChords, p, d);
    var filteredOptions := Without(chordOptions, previousChord);
    var finalOptions := if |filteredOptions| > 0 then filteredOptions else chordOptions;
    randomChord := finalOptions[RandomIndex(d.pick, |finalOptions|)];
  }

  // ---------------------------------------------------------------------
  // Properties of the generator

  /** One more step draw adds the chord chosen after the last one. */
  lemma ProgressionExtends(vocab: seq<string>, p: Params, first: string, steps: seq<StepDraw>, k: nat)
    requires vocab != [] && k < |steps|
    ensures var prior := ProgressionOf(vocab, p, first, steps[..k]);
      ProgressionOf(vocab, p, first, steps[..k + 1]) == prior + [ChooseNext(vocab, p, steps[k], prior[k])]
  {
    assert steps[..k + 1][..k] == steps[..k];
  }

  /** The generator fails exactly for a scale type missing from the table;
      otherwise it returns `length` chords (one when `length` <= 1) starting
      with the resolved first chord. */
  lemma GenerateShape(p: Params, firstDraw: Draw, steps: seq<StepDraw>)
    requires |steps| >= StepCount(p.length)
    ensures var r := Generate(p, firstDraw, steps);
      (r.Err? <==> p.scaleType !in ScaleTypeNames) &&
      (r.Ok? ==> |r.value| == (if p.length >= 1 then p.length else 1)) &&
      (r.Ok? ==> r.value[0] == FirstChord(ScaleChords(p.scaleType).value, p, firstDraw)) &&
      (r.Ok? && p.firstChord != "Any" ==> r.value[0] == p.firstChord) &&
      (r.Ok? && p.firstChord == "Any" ==> r.value[0] in ScaleChords(p.scaleType).value)
  {
  }

  /** Generating over fewer draws gives a prefix of the progression. */
  lemma {:induction false} ProgressionPrefix(vocab: seq<string>, p: Params, first: string, steps: seq<StepDraw>, k: nat)
    requires vocab != [] && k <= |steps|
    ensures ProgressionOf(vocab, p, first, steps[..k]) == ProgressionOf(vocab, p, first, steps)[..k + 1]
    decreases |steps|
  {
    if k < |steps| {
      var init := steps[..|steps| - 1];
      assert init[..k] == steps[..k];
      ProgressionPrefix(vocab, p, first, init, k);
    } else {
      assert steps[..k] == steps;
    }
  }

  /** Chord `i` (for `i` >= 1) is the choice of iteration `i` after chord `i - 1`. */
  lemma ProgressionStep(vocab: seq<string>, p: Params, first: string, steps: seq<StepDraw>, i: nat)
    requires vocab != [] && 1 <= i <= |steps|
    ensures ProgressionOf(vocab, p, first, steps)[i]
         == ChooseNext(vocab, p, steps[i - 1], ProgressionOf(vocab, p, first, steps)[i - 1])
  {
    var pre := steps[..i];
    var q := ProgressionOf(vocab, p, first, pre);
    var r := ProgressionOf(vocab, p, first, steps);
    ProgressionPrefix(vocab, p, first, steps, i);
    ProgressionLast(vocab, p, first, pre);
    assert q == r[..i + 1];
    assert q[i] == r[i] && q[i - 1] == r[i - 1] && pre[i - 1] == steps[i - 1];
  }

  /** The last chord is the choice of the last iteration. */
  lemma ProgressionLast(vocab: seq<string>, p: Params, first: string, steps: seq<StepDraw>)
    requires vocab != [] && 1 <= |steps|
    ensures var r := ProgressionOf(vocab, p, first, steps);
      r[|steps|] == ChooseNext(vocab, p, steps[|steps| - 1], r[|steps| - 1])
  {
    var n := |steps|;
    var prior := ProgressionOf(vocab, p, first, steps[..n - 1]);
    var r := ProgressionOf(vocab, p, first, steps);
    assert r[n - 1] == prior[n - 1];
  }

  /** The chord chosen in one iteration is one of that iteration's options, and
      it repeats the previous chord exactly when every option equals the previous
      chord (lines 116-122). */
  lemma ChooseNextFromOptions(vocab: seq<string>, p: Params, d: StepDraw, previous: string)
    requires vocab != []
    ensures ChooseNext(vocab, p, d, previous) in StepOptions(vocab, p, d)
    ensures ChooseNext(vocab, p, d, previous) == previous <==> AllEqualTo(StepOptions(vocab, p, d), previous)
  {
    var options := StepOptions(vocab, p, d);
    var filtered := Without(options, previous);
    var chosen := ChooseNext(vocab, p, d, previous);
    if |filtered| > 0 {
      assert chosen in filtered;
      assert filtered[0] in options && filtered[0] != previous;
    }
  }

  /** Two adjacent chords are equal exactly when every option of that
      iteration equals the earlier chord. */
  lemma AdjacentRepeatOnlyWhenForced(vocab: seq<string>, p: Params, first: string, steps: seq<StepDraw>, i: nat)
    requires vocab != [] && 1 <= i <= |steps|
    ensures var r := ProgressionOf(vocab, p, first, steps);
      r[i] in StepOptions(vocab, p, steps[i - 1]) &&
      (r[i] == r[i - 1] <==> AllEqualTo(StepOptions(vocab, p, steps[i - 1]), r[i - 1]))
  {
    var r := ProgressionOf(vocab, p, first, steps);
    ProgressionStep(vocab, p, first, steps, i);
    ChooseNextFromOptions(vocab, p, steps[i - 1], r[i - 1]);
  }

  /** With borrowed and suspended chords off, every chord after the first
      belongs to the scale's vocabulary. */
  lemma StaysInVocabulary(vocab: seq<string>, p: Params, first: string, steps: seq<StepDraw>, i: nat)
    requires vocab != [] && 1 <= i <= |steps| && !p.allowBorrowedSuspended
    ensures ProgressionOf(vocab, p, first, steps)[i] in vocab
  {
    AdjacentRepeatOnlyWhenForced(vocab, p, first, steps, i);
  }

  /** The re-filter of lines 105-107 returns the borrowed list unchanged. */
  lemma {:induction false} ExtendingAnyKeepsAll(candidates: seq<string>, bases: seq<string>)
    requires forall c :: c in candidates ==> ExtendsSome(c, bases)
    ensures ExtendingAny(candidates, bases) == candidates
    decreases |candidates|
  {
    if candidates != [] {
      assert candidates[0] in candidates;
      ExtendingAnyKeepsAll(candidates[1..], bases);
      assert candidates == [candidates[0]] + candidates[1..];
    }
  }

  /** The borrowed candidates are exactly the chord symbols that contain "sus"
      and start, case-sensitively, with a vocabulary symbol; all have semitone
      offsets, and the re-filter of lines 105-107 leaves the list unchanged. */
  lemma BorrowedCandidates(vocab: seq<string>)
    ensures forall c :: (c in BorrowedSuspended(vocab)
      <==> c in ChordSymbols && Includes(c, "sus") && ExtendsSome(c, vocab))
    ensures forall c :: c in BorrowedSuspended(vocab) ==> ChordSemitones(c).Some?
    ensures ExtendingAny(BorrowedSuspended(vocab), vocab) == BorrowedSuspended(vocab)
  {
    forall c | c in BorrowedSuspended(vocab) ensures ChordSemitones(c).Some? {
      ChordSymbolsAgree(c);
    }
    ExtendingAnyKeepsAll(BorrowedSuspended(vocab), vocab);
  }

  /** The prefix match admits more than the suspended forms of a vocabulary
      chord: for Major, "I" admits "IIIsus2" and "IVsus4". */
  lemma PrefixMatchQuirk()
    ensures "IIIsus2" in BorrowedSuspended(ScaleChords("Major").value)
    ensures "IVsus4" in BorrowedSuspended(ScaleChords("Major").value)
  {
    var major := ScaleChords("Major").value;
    assert major[0] == "I";
    assert StartsWith("IIIsus2", major[0]) && StartsWith("IVsus4", major[0]);
    assert ExtendsSome("IIIsus2", major) && ExtendsSome("IVsus4", major);
    IncludesIffOccurs("IIIsus2", "sus");
    assert "IIIsus2"[3..6] == "sus";
    assert OccursAt("IIIsus2", "sus", 3);
    IncludesIffOccurs("IVsus4", "sus");
    assert "IVsus4"[2..5] == "sus";
    assert OccursAt("IVsus4", "sus", 2);
    assert "IIIsus2" in ChordSymbols && "IVsus4" in ChordSymbols;
    BorrowedCandidates(major);
  }

  /** "subV7" is not a suspended candidate: it does not contain "sus". */
  lemma SubstituteNotBorrowed(vocab: seq<string>)
    ensures "subV7" !in BorrowedSuspended(vocab)
  {
    IncludesIffOccurs("subV7", "sus");
    forall i | 0 <= i <= 2 ensures !OccursAt("subV7", "sus", i) {
      if i == 0 {
        assert "subV7"[0..3][2] != "sus"[2];
      } else {
        assert "subV7"[i..i + 3][0] != "sus"[0];
      }
    }
  }

  /** For a scale type of the table, "subV7" is on offer exactly when both
      flags are set and the second coin falls, whatever the first coin did. */
  lemma SubstituteOfferedIff(scaleType: string, p: Params, d: StepDraw)
    requires ScaleChords(scaleType).Some?
    ensures "subV7" in StepOptions(ScaleChords(scaleType).value, p, d)
        <==> p.fuckMyDytech && p.allowBorrowedSuspended && FivePercent(d.sub)
  {
    var vocab := ScaleChords(scaleType).value;
    VocabularyExcludesSpecials(scaleType);
    SubstituteNotBorrowed(vocab);
    BorrowedCandidates(vocab);
  }

  /** Every chord after the first comes from the vocabulary, the borrowed list
      or is "subV7"; "subV7" needs both flags. */
  lemma ChordOrigins(scaleType: string, p: Params, first: string, steps: seq<StepDraw>, i: nat)
    requires ScaleChords(scaleType).Some? && 1 <= i <= |steps|
    ensures var vocab := ScaleChords(scaleType).value;
      var c := ProgressionOf(vocab, p, first, steps)[i];
      (c in vocab || c in BorrowedSuspended(vocab) || c == "subV7") &&
      (c == "subV7" ==> p.fuckMyDytech && p.allowBorrowedSuspended)
  {
    var vocab := ScaleChords(scaleType).value;
    AdjacentRepeatOnlyWhenForced(vocab, p, first, steps, i);
    SubstituteOfferedIff(scaleType, p, steps[i - 1]);
    BorrowedCandidates(vocab);
  }

  /** A vocabulary in which every symbol has semitone offsets. */
  predicate FullyMapped(vocab: seq<string>)
  {
    forall c :: c in vocab ==> ChordSemitones(c).Some?
  }

  /** Every scale type's vocabulary is fully mapped, except melodic minor's. */
  lemma FullyMappedScales(scaleType: string)
    requires ScaleChords(scaleType).Some?
    ensures FullyMapped(ScaleChords(scaleType).value) <==> scaleType != "Melodic minor"
  {
    if scaleType == "Melodic minor" {
      VocabularyMapped(scaleType, "iii+");
    } else {
      forall c | c in ScaleChords(scaleType).value ensures ChordSemitones(c).Some? {
        VocabularyMapped(scaleType, c);
      }
    }
  }

  /** Over a fully mapped vocabulary, every chord of the progression has
      semitone offsets when the first one has. */
  lemma ProgressionMapped(vocab: seq<string>, p: Params, first: string, steps: seq<StepDraw>, i: nat)
    requires vocab != [] && FullyMapped(vocab) && ChordSemitones(first).Some?
    requires i <= |steps|
    ensures ChordSemitones(ProgressionOf(vocab, p, first, steps)[i]).Some?
  {
    if i > 0 {
      var c := ProgressionOf(vocab, p, first, steps)[i];
      AdjacentRepeatOnlyWhenForced(vocab, p, first, steps, i);
      BorrowedCandidates(vocab);
      ChordSymbolsAgree("subV7");
      assert c in vocab || c in BorrowedSuspended(vocab) || c == "subV7";
    }
  }

  /** Every generated chord has semitone offsets when the first chord has, and
      the scale type is not melodic minor, whose `iii+` has none. */
  lemma GeneratedChordsMapped(p: Params, firstDraw: Draw, steps: seq<StepDraw>, i: nat)
    requires |steps| >= StepCount(p.length)
    requires Generate(p, firstDraw, steps).Ok? && i < |Generate(p, firstDraw, steps).value|
    requires p.scaleType != "Melodic minor"
    requires p.firstChord == "Any" || ChordSemitones(p.firstChord).Some?
    ensures ChordSemitones(Generate(p, firstDraw, steps).value[i]).Some?
  {
    var vocab := ScaleChords(p.scaleType).value;
    FullyMappedScales(p.scaleType);
    var first := FirstChord(vocab, p, firstDraw);
    assert ChordSemitones(first).Some?;
    ProgressionMapped(vocab, p, first, steps[..StepCount(p.length)], i);
  }
}

/** The progression controls: the option lists of the selects and the
    parameter update that resets the first chord when the scale changes. */
module ProgressionControls {
  import opened Types
  import opened ChordTables

  /** The scale-type select. */
  const ScaleTypes: seq<string> := ["Any", "Major", "Natural minor", "Harmonic minor", "Melodic minor"]

  /** The key select. */
  const Keys: seq<string> := ["C", "C#", "D", "D#", "E", "F", "F#", "G", "G#", "A", "A#", "B"]

  /** The selectable scale types are exactly the scale types with a vocabulary,
      and the selectable keys exactly the keys with a pitch offset, in the
      tables' own order. */
  lemma OptionListsMatchTables()
    ensures ScaleTypes == ScaleTypeNames && Keys == KeyNames
    ensures forall s :: s in ScaleTypes <==> ScaleChords(s).Some?
    ensures forall k :: k in Keys <==> KeyToMidiOffset(k).Some?
  {
  }

  /** The replacement first chord: the first option, or '' when there is none. */
  function DefaultFirstChord(options: seq<string>): (r: string)
    ensures options != [] ==> r == options[0]
    ensures options == [] ==> r == ""
  {
    if options == [] then "" else options[0]
  }

  /** `updateParam(key, value)`: the spread copy with the field replaced, and
      on a scale change a first chord that the new scale does not offer
      replaced by that scale's first option. */
  function UpdateParam(params: Params, u: ParamUpdate): (r: Params)
    ensures r.(firstChord := Apply(params, u).firstChord) == Apply(params, u)
  {
    var newParams := Apply(params, u);
    if u.SetScaleType? && newParams.firstChord !in GetFirstChordOptions(u.scaleType) then
      newParams.(firstChord := DefaultFirstChord(GetFirstChordOptions(u.scaleType)))
    else newParams
  }

  /** Only a scale change can touch the first chord without naming it: any
      other update is the plain spread copy. */
  lemma OtherUpdatesKeepFirstChord(params: Params, u: ParamUpdate)
    requires !u.SetScaleType?
    ensures UpdateParam(params, u) == Apply(params, u)
    ensures !u.SetFirstChord? ==> UpdateParam(params, u).firstChord == params.firstChord
  {
  }

  /** On a scale change the first chord is kept exactly when the new scale
      offers it, and otherwise becomes the new scale's first option (or ''). */
  lemma ScaleChangeFirstChord(params: Params, scaleType: string)
    ensures var r := UpdateParam(params, SetScaleType(scaleType));
      var options := GetFirstChordOptions(scaleType);
      r.scaleType == scaleType &&
      (params.firstChord in options ==> r.firstChord == params.firstChord) &&
      (params.firstChord !in options ==> r.firstChord == DefaultFirstChord(options))
  {
  }

  /** After a change to a known scale the first chord is one the scale offers;
      after a change to an unknown one it is ''. */
  lemma ScaleChangeLeavesValidFirstChord(params: Params, scaleType: string)
    ensures scaleType in ScaleTypes ==>
      UpdateParam(params, SetScaleType(scaleType)).firstChord in GetFirstChordOptions(scaleType)
    ensures scaleType !in ScaleTypes ==> UpdateParam(params, SetScaleType(scaleType)).firstChord == ""
  {
  }

  /** The first-chord select never offers "Any": its options are the scale's
      vocabulary. */
  lemma AnyNeverOffered(scaleType: string)
    ensures "Any" !in GetFirstChordOptions(scaleType)
  {
    if ScaleChords(scaleType).Some? {
      VocabularyExcludesSpecials(scaleType);
    }
  }
}

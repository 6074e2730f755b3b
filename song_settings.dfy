/** The song settings: the tempo limits kept at least 10 BPM apart and the
    time signature held at 4/4 unless FUCK MYDYTECH is on, with the warning
    the component shows when it refuses a time signature. */
module SongSettings {
  import opened Types

  /** The smallest distance the controls keep between the two tempo limits. */
  const TempoGap: int := 10

  const Refusal: string := "[ time signature request not approved ]"

  /** A time-signature request is refused when it is not 4/4 and FUCK
      MYDYTECH is off in the current parameters. */
  predicate Refused(params: Params, u: ParamUpdate)
  {
    u.SetTimeSignature? && u.timeSignature != "4/4" && !params.fuckMyDytech
  }

  /** The `newParams` that `updateParam(key, value)` hands on. */
  function SettingsUpdate(params: Params, u: ParamUpdate): (r: Params)
    ensures r.(upperTempoLimit := 0, lowerTempoLimit := 0, timeSignature := "") ==
      Apply(params, u).(upperTempoLimit := 0, lowerTempoLimit := 0, timeSignature := "")
    ensures u.SetUpperTempoLimit? || u.SetLowerTempoLimit? ==> r.upperTempoLimit - r.lowerTempoLimit >= TempoGap
    ensures !u.SetUpperTempoLimit? && !u.SetLowerTempoLimit? ==>
      r.upperTempoLimit == params.upperTempoLimit && r.lowerTempoLimit == params.lowerTempoLimit
    ensures u.SetTimeSignature? ==> r.timeSignature == (if params.fuckMyDytech then u.timeSignature else "4/4")
  {
    var newParams := Apply(params, u);
    match u
    case SetUpperTempoLimit(value) =>
      var minUpper := params.lowerTempoLimit + TempoGap;
      if value < minUpper then newParams.(upperTempoLimit := minUpper, lowerTempoLimit := value - TempoGap)
      else newParams
    case SetLowerTempoLimit(value) =>
      var maxLower := params.upperTempoLimit - TempoGap;
      if value > maxLower then newParams.(lowerTempoLimit := maxLower, upperTempoLimit := value + TempoGap)
      else newParams
    case SetTimeSignature(value) =>
      if Refused(params, u) then newParams.(timeSignature := "4/4") else newParams
    case _ => newParams
  }

  /** The component's own state: the warning text and whether it shows. */
  class SongSettingsControls {
    var warningMessage: string
    var showWarning: bool

    constructor()
      ensures warningMessage == "" && !showWarning
    {
      warningMessage := "";
      showWarning := false;
    }

    /** `updateParam`: returns the parameters passed to `onParamsChange` and
        raises the warning when a time signature is refused. */
    method UpdateParam(params: Params, u: ParamUpdate) returns (newParams: Params)
      modifies this
      ensures newParams == SettingsUpdate(params, u)
      ensures Refused(params, u) ==> warningMessage == Refusal && showWarning
      ensures !Refused(params, u) ==> warningMessage == old(warningMessage) && showWarning == old(showWarning)
    {
      newParams := Apply(params, u);
      if u.SetUpperTempoLimit? {
        var minUpper := params.lowerTempoLimit + TempoGap;
        if u.upper < minUpper {
          newParams := newParams.(upperTempoLimit := minUpper, lowerTempoLimit := u.upper - TempoGap);
        }
      } else if u.SetLowerTempoLimit? {
        var maxLower := params.upperTempoLimit - TempoGap;
        if u.lower > maxLower {
          newParams := newParams.(lowerTempoLimit := maxLower, upperTempoLimit := u.lower + TempoGap);
        }
      }
      if u.SetTimeSignature? && u.timeSignature != "4/4" && !params.fuckMyDytech {
        warningMessage := Refusal;
        showWarning := true;
        newParams := newParams.(timeSignature := "4/4");
      }
    }
  }

  // ---------------------------------------------------------------------
  // Properties of the update

  /** Updates other than the tempo limits and the time signature change only
      the field they name. */
  lemma OtherFieldsOnly(params: Params, u: ParamUpdate)
    requires !u.SetUpperTempoLimit? && !u.SetLowerTempoLimit? && !u.SetTimeSignature?
    ensures SettingsUpdate(params, u) == Apply(params, u)
  {
  }

  /** Raising or keeping the upper limit at least 10 above the lower limit sets
      only the upper limit; a lower value pushes the lower limit down to stay
      10 below it, and the upper limit stops at the old lower limit plus 10. */
  lemma UpperLimitRule(params: Params, value: int)
    ensures var r := SettingsUpdate(params, SetUpperTempoLimit(value));
      (value >= params.lowerTempoLimit + 10 ==> r == params.(upperTempoLimit := value)) &&
      (value < params.lowerTempoLimit + 10 ==>
        r == params.(upperTempoLimit := params.lowerTempoLimit + 10, lowerTempoLimit := value - 10))
  {
  }

  /** The mirror rule for the lower limit. */
  lemma LowerLimitRule(params: Params, value: int)
    ensures var r := SettingsUpdate(params, SetLowerTempoLimit(value));
      (value <= params.upperTempoLimit - 10 ==> r == params.(lowerTempoLimit := value)) &&
      (value > params.upperTempoLimit - 10 ==>
        r == params.(lowerTempoLimit := params.upperTempoLimit - 10, upperTempoLimit := value + 10))
  {
  }

  /** After any tempo-limit update the limits are at least 10 BPM apart,
      whatever they were before. */
  lemma TempoGapAfterUpdate(params: Params, u: ParamUpdate)
    requires u.SetUpperTempoLimit? || u.SetLowerTempoLimit?
    ensures SettingsUpdate(params, u).upperTempoLimit - SettingsUpdate(params, u).lowerTempoLimit >= TempoGap
  {
  }

  /** Parameters whose limits are 10 apart stay so under every update. */
  lemma TempoGapPreserved(params: Params, u: ParamUpdate)
    requires params.upperTempoLimit - params.lowerTempoLimit >= TempoGap
    ensures SettingsUpdate(params, u).upperTempoLimit - SettingsUpdate(params, u).lowerTempoLimit >= TempoGap
  {
  }

  /** With FUCK MYDYTECH off every time signature request ends at 4/4; with it
      on the request is stored as given. */
  lemma TimeSignatureRule(params: Params, value: string)
    ensures !params.fuckMyDytech ==> SettingsUpdate(params, SetTimeSignature(value)).timeSignature == "4/4"
    ensures params.fuckMyDytech ==> SettingsUpdate(params, SetTimeSignature(value)).timeSignature == value
    ensures SettingsUpdate(params, SetTimeSignature(value)) == params.(timeSignature := SettingsUpdate(params, SetTimeSignature(value)).timeSignature)
  {
  }
}

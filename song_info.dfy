/** Song information: the random song name, the tempo drawn between the
    limits, the number of four-bar sections, the record the components store,
    the record the display falls back to, and its clipboard and download text. */
module SongInfoRules {
  import opened Common
  import opened Strings
  import opened Types

  const Consonants: seq<char> := ['B', 'C', 'D', 'F', 'G', 'H', 'J', 'K', 'L', 'M', 'N', 'P', 'R', 'S', 'T', 'V', 'W', 'X', 'Z']

  const Vowels: seq<char> := ['A', 'E', 'I', 'O', 'U', 'Y']

  /** The nine draws of one song name, in the order the expression makes them:
      consonant, vowel three times, then three digits. */
  datatype NameDraws = NameDraws(c1: Draw, v1: Draw, c2: Draw, v2: Draw, c3: Draw, v3: Draw, d1: Draw, d2: Draw, d3: Draw)

  /** `getRandomElement(arr)`. */
  function RandomElement(arr: seq<char>, r: Draw): (c: char)
    requires |arr| > 0
    ensures c in arr
  {
    arr[RandomIndex(r, |arr|)]
  }

  /** `Math.floor(Math.random() * 10)` appended to a string: one decimal digit. */
  function RandomDigit(r: Draw): (c: char)
    ensures IsDigit(c)
  {
    DigitChar(RandomIndex(r, 10))
  }

  /** The shape every song name has: consonant, vowel, consonant, vowel,
      consonant, vowel and three decimal digits. */
  predicate WellFormedSongName(s: string)
  {
    |s| == 9 &&
    s[0] in Consonants && s[1] in Vowels &&
    s[2] in Consonants && s[3] in Vowels &&
    s[4] in Consonants && s[5] in Vowels &&
    IsDigit(s[6]) && IsDigit(s[7]) && IsDigit(s[8])
  }

  /** `generateSongName()`. */
  function SongName(d: NameDraws): (s: string)
    ensures WellFormedSongName(s)
  {
    [RandomElement(Consonants, d.c1), RandomElement(Vowels, d.v1),
     RandomElement(Consonants, d.c2), RandomElement(Vowels, d.v2),
     RandomElement(Consonants, d.c3), RandomElement(Vowels, d.v3),
     RandomDigit(d.d1), RandomDigit(d.d2), RandomDigit(d.d3)]
  }

  /** The draw that picks a given element of a list. */
  lemma ElementReachable(arr: seq<char>, c: char) returns (r: Draw)
    requires c in arr
    ensures RandomElement(arr, r) == c
  {
    var i :| 0 <= i < |arr| && arr[i] == c;
    RandomIndexReaches(i, |arr|);
    r := (i as real) / (|arr| as real);
  }

  /** The draw that produces a given digit. */
  lemma DigitReachable(c: char) returns (r: Draw)
    requires IsDigit(c)
    ensures RandomDigit(r) == c
  {
    var i := c as int - '0' as int;
    RandomIndexReaches(i, 10);
    r := (i as real) / 10.0;
  }

  /** Every well-formed name is the name of some draws: the shape describes
      exactly the names that can come out. */
  lemma EveryWellFormedNameDrawn(s: string)
    requires WellFormedSongName(s)
    ensures exists d :: SongName(d) == s
  {
    var c1 := ElementReachable(Consonants, s[0]);
    var v1 := ElementReachable(Vowels, s[1]);
    var c2 := ElementReachable(Consonants, s[2]);
    var v2 := ElementReachable(Vowels, s[3]);
    var c3 := ElementReachable(Consonants, s[4]);
    var v3 := ElementReachable(Vowels, s[5]);
    var d1 := DigitReachable(s[6]);
    var d2 := DigitReachable(s[7]);
    var d3 := DigitReachable(s[8]);
    var d := NameDraws(c1, v1, c2, v2, c3, v3, d1, d2, d3);
    assert SongName(d) == s;
  }

  /** `Math.floor(Math.random() * (upper - lower + 1)) + lower`. */
  function DrawTempo(r: Draw, lower: int, upper: int): (tempo: int)
    ensures lower <= upper ==> lower <= tempo <= upper
  {
    var width := upper - lower + 1;
    if width > 0 then RandomIndex(r, width) + lower
    else (r * (width as real)).Floor + lower
  }

  /** Every tempo between the limits can be drawn. */
  lemma EveryTempoDrawn(lower: int, upper: int, tempo: int) returns (r: Draw)
    requires lower <= tempo <= upper
    ensures DrawTempo(r, lower, upper) == tempo
  {
    var width := upper - lower + 1;
    RandomIndexReaches(tempo - lower, width);
    r := ((tempo - lower) as real) / (width as real);
  }

  /** `Math.ceil(x / 16)` for an integer `x`: the least whole number of
      sixteens that covers `x`. */
  function CeilDiv16(x: int): (q: int)
    ensures 16 * (q - 1) < x <= 16 * q
  {
    (x + 15) / 16
  }

  /** `fourBarSections`: minutes times beats per minute over 16 beats per
      four bars of 4/4, rounded up. */
  function FourBarSections(songLength: int, tempo: int): (sections: int)
    ensures 16 * (sections - 1) < songLength * tempo <= 16 * sections
  {
    CeilDiv16(songLength * tempo)
  }

  /** The draws of one song-info generation: the tempo first, then the name. */
  datatype SongInfoDraws = SongInfoDraws(tempo: Draw, name: NameDraws)

  /** `generateSongInfo()` of the song-info display and `handleGenerateSongInfo`
      of the component without the time-signature check. */
  function GenerateSongInfo(params: Params, d: SongInfoDraws, now: int): (info: SongInfo)
    ensures info.songLength == params.songLength && info.timeSignature == params.timeSignature
    ensures params.lowerTempoLimit <= params.upperTempoLimit ==>
      params.lowerTempoLimit <= info.tempo <= params.upperTempoLimit
    ensures info.fourBarSections.Count? &&
      16 * (info.fourBarSections.count - 1) < params.songLength * info.tempo <= 16 * info.fourBarSections.count
    ensures WellFormedSongName(info.songName) && info.timestamp == now
  {
    var tempo := DrawTempo(d.tempo, params.lowerTempoLimit, params.upperTempoLimit);
    SongInfo(SongName(d.name), params.songLength, params.timeSignature, tempo,
      Count(FourBarSections(params.songLength, tempo)), now)
  }

  /** `handleGenerateSongInfo` of the component with the time-signature check:
      four-bar sections only for 4/4, "N/A" otherwise. */
  function GenerateSongInfoChecked(params: Params, d: SongInfoDraws, now: int): (info: SongInfo)
    ensures info.fourBarSections.Count? <==> params.timeSignature == "4/4"
    ensures info.songLength == params.songLength && info.timeSignature == params.timeSignature
  {
    var tempo := DrawTempo(d.tempo, params.lowerTempoLimit, params.upperTempoLimit);
    var fourBarSections := if params.timeSignature == "4/4" then Count(FourBarSections(params.songLength, tempo)) else NotApplicable;
    SongInfo(SongName(d.name), params.songLength, params.timeSignature, tempo, fourBarSections, now)
  }

  /** The two generators agree in 4/4 and otherwise differ only in the sections. */
  lemma CheckedAgreesInFourFour(params: Params, d: SongInfoDraws, now: int)
    ensures params.timeSignature == "4/4" ==> GenerateSongInfoChecked(params, d, now) == GenerateSongInfo(params, d, now)
    ensures params.timeSignature != "4/4" ==>
      GenerateSongInfoChecked(params, d, now) == GenerateSongInfo(params, d, now).(fourBarSections := NotApplicable)
  {
  }

  /** `generatedSongInfo || generateSongInfo()`: the stored record when there is
      one, a fresh default otherwise; the display always has a record. */
  function DisplayedSongInfo(generated: Option<SongInfo>, params: Params, d: SongInfoDraws, now: int): (info: SongInfo)
    ensures generated.Some? ==> info == generated.value
    ensures generated.None? ==> info == GenerateSongInfo(params, d, now)
  {
    match generated
    case Some(g) => g
    case None => GenerateSongInfo(params, d, now)
  }

  /** 'minute' for a one-minute song, 'minutes' otherwise. */
  function LengthUnit(songLength: int): (unit: string)
    ensures unit == "minute" <==> songLength == 1
    ensures unit == "minutes" <==> songLength != 1
  {
    if songLength == 1 then "minute" else "minutes"
  }

  /** `${fourBarSections}`: the number, or the string "N/A". */
  function SectionsText(s: Sections): (r: string)
    ensures r == "N/A" <==> s.NotApplicable?
    ensures s.Count? && s.count >= 0 ==> AllDigits(r)
  {
    match s
    case Count(n) => IntToDecimal(n)
    case NotApplicable => "N/A"
  }

  /** The five labelled lines of the song-info text. */
  function InfoLines(info: SongInfo): seq<string>
  {
    ["Song: " + info.songName,
     "Song Length: " + IntToDecimal(info.songLength) + " " + LengthUnit(info.songLength),
     "Time Signature: " + info.timeSignature,
     "Tempo: " + IntToDecimal(info.tempo) + " BPM",
     "4-Bar Sections: " + SectionsText(info.fourBarSections)]
  }

  /** The song-info text of the clipboard. */
  function InfoText(info: SongInfo): (r: string)
    ensures StartsWith(r, "Song: " + info.songName)
  {
    var ls := InfoLines(info);
    assert JoinLines(ls[..1]) == ls[0] by {
      assert ls[..1] == [ls[0]];
    }
    JoinLinesPrefix(ls, 1);
    JoinLines(ls)
  }

  const NoSongInfoText: string := "No song info to copy"

  /** The clipboard text: the song-info text, or the placeholder without a record. */
  function InfoClipboardText(songInfo: Option<SongInfo>): (r: string)
    ensures r == NoSongInfoText <==> songInfo.None?
    ensures songInfo.Some? ==> r == InfoText(songInfo.value)
  {
    match songInfo
    case None => NoSongInfoText
    case Some(info) =>
      var text := InfoText(info);
      assert text[0] == 'S' != NoSongInfoText[0] by {
        InfoTextStart(info);
      }
      text
  }

  lemma InfoTextStart(info: SongInfo)
    ensures |InfoText(info)| > 0 && InfoText(info)[0] == 'S'
  {
    assert InfoText(info)[..6] == "Song: ";
  }

  /** A join starts with the join of any nonempty prefix of its lines. */
  lemma {:induction false} JoinLinesPrefix(ls: seq<string>, k: nat)
    requires 0 < k <= |ls|
    ensures StartsWith(JoinLines(ls), JoinLines(ls[..k]))
    decreases |ls|
  {
    if k < |ls| {
      var n := |ls|;
      JoinLinesPrefix(ls[..n - 1], k);
      assert ls[..n - 1][..k] == ls[..k];
      var prior := JoinLines(ls[..n - 1]);
      assert JoinLines(ls) == prior + "\n" + ls[n - 1];
      assert (prior + "\n" + ls[n - 1])[..|JoinLines(ls[..k])|] == prior[..|JoinLines(ls[..k])|];
    } else {
      assert ls[..k] == ls;
    }
  }

  /** The clipboard text of the display is never the placeholder: the display
      always has a record, so that branch cannot be taken. */
  lemma PlaceholderUnreachable(generated: Option<SongInfo>, params: Params, d: SongInfoDraws, now: int)
    ensures InfoClipboardText(Some(DisplayedSongInfo(generated, params, d, now))) != NoSongInfoText
  {
  }

  /** The clipboard text reads back as the five labelled lines when the name
      and time signature have no line break. */
  lemma InfoTextLines(info: SongInfo)
    requires '\n' !in info.songName && '\n' !in info.timeSignature
    ensures Lines(InfoText(info)) == InfoLines(info)
  {
    var ls := InfoLines(info);
    NoBreakInConcat("Song: ", info.songName);
    DecimalNoBreak(info.songLength);
    NoBreakInConcat("Song Length: ", IntToDecimal(info.songLength));
    NoBreakInConcat("Song Length: " + IntToDecimal(info.songLength), " ");
    NoBreakInConcat("Song Length: " + IntToDecimal(info.songLength) + " ", LengthUnit(info.songLength));
    NoBreakInConcat("Time Signature: ", info.timeSignature);
    DecimalNoBreak(info.tempo);
    NoBreakInConcat("Tempo: ", IntToDecimal(info.tempo));
    NoBreakInConcat("Tempo: " + IntToDecimal(info.tempo), " BPM");
    if info.fourBarSections.Count? {
      DecimalNoBreak(info.fourBarSections.count);
    }
    NoBreakInConcat("4-Bar Sections: ", SectionsText(info.fourBarSections));
    LinesOfJoinLines(ls);
  }

  lemma DecimalNoBreak(x: int)
    ensures '\n' !in IntToDecimal(x)
  {
    var s := IntToDecimal(x);
    if x >= 0 {
      assert AllDigits(s);
    } else {
      assert AllDigits(NatToDecimal(-x));
      assert s == "-" + NatToDecimal(-x);
    }
  }

  /** The footer of the downloaded text: a notice, a blank line and a warning. */
  const InfoFooter: string := FooterNotice + "\n\n" + FooterWarning

  const FooterNotice: string :=
    "Generated with OBEYINATOR. Reminder: all artistic endeavors that use any MYDYTECH products grant all rights to those artistic outputs to MYDYTECH LLC. "

  const FooterWarning: string := "TERMS WILL BE ENFORCED"

  /** The downloaded text: the clipboard text, a blank line and the footer. */
  function InfoDownloadText(info: SongInfo): (r: string)
    ensures StartsWith(r, InfoClipboardText(Some(info)))
    ensures r == InfoClipboardText(Some(info)) + "\n\n" + InfoFooter
  {
    InfoText(info) + "\n\n" + InfoFooter
  }

  /** `song-info-<songName>.txt`. */
  function InfoFileName(info: SongInfo): (r: string)
    ensures StartsWith(r, "song-info-") && EndsWith(r, ".txt")
    ensures |r| == |info.songName| + 14 && r[10..|r| - 4] == info.songName
  {
    "song-info-" + info.songName + ".txt"
  }

  datatype InfoFile = InfoFile(filename: string, contents: string)

  /** `handleDownloadText` of the display: the downloaded text under the
      song-info file name. */
  function InfoDownload(info: SongInfo): (file: InfoFile)
    ensures StartsWith(file.filename, "song-info-") && EndsWith(file.filename, ".txt")
    ensures |file.filename| == |info.songName| + 14 && file.filename[10..|file.filename| - 4] == info.songName
    ensures StartsWith(file.contents, InfoText(info))
    ensures file.contents == InfoClipboardText(Some(info)) + "\n\n" + InfoFooter
  {
    InfoFile(InfoFileName(info), InfoDownloadText(info))
  }

  /** The downloaded file holds the five info lines, a blank line, the
      notice, another blank line and the warning, in that order. */
  lemma InfoDownloadLines(info: SongInfo)
    requires '\n' !in info.songName && '\n' !in info.timeSignature
    ensures Lines(InfoDownload(info).contents) == InfoLines(info) + [""] + Lines(FooterNotice) + ["", FooterWarning]
  {
    var text := InfoText(info);
    assert InfoDownload(info).contents == text + "\n\n" + (FooterNotice + "\n\n" + FooterWarning);
    InfoTextLines(info);
    WarningOneLine();
    BlankLinesAround(text, FooterNotice, FooterWarning);
  }

  lemma WarningOneLine()
    ensures Lines(FooterWarning) == [FooterWarning]
  {
    assert '\n' !in FooterWarning;
    SingleLine(FooterWarning);
  }

  /** Text, notice and warning separated by blank lines. */
  lemma BlankLinesAround(text: string, notice: string, warning: string)
    ensures Lines(text + "\n\n" + (notice + "\n\n" + warning)) ==
      Lines(text) + [""] + Lines(notice) + [""] + Lines(warning)
  {
    var head := text + "\n\n" + notice;
    assert text + "\n\n" + (notice + "\n\n" + warning) == head + "\n\n" + warning;
    BlankLineBetween(text, notice);
    BlankLineBetween(head, warning);
  }
}

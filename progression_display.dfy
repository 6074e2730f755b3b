/** The text the progression display produces: the chord line of
    `formatProgressionText`, the export text shared by the clipboard and the
    text download, and the names of the downloaded files. */
module ProgressionDisplay {
  import opened Common
  import opened Strings
  import opened Types
  import opened MidiGenerator

  /** `parts.join(sep)`. */
  function Join(parts: seq<string>, sep: string): string
    decreases |parts|
  {
    if parts == [] then ""
    else if |parts| == 1 then parts[0]
    else Join(parts[..|parts| - 1], sep) + sep + parts[|parts| - 1]
  }

  /** Each part followed by its separator: `parts[0] + seps[0] + parts[1] + seps[1] + ...`. */
  function Weave(parts: seq<string>, seps: seq<string>): string
    requires |parts| == |seps|
    decreases |parts|
  {
    if parts == [] then ""
    else Weave(parts[..|parts| - 1], seps[..|seps| - 1]) + parts[|parts| - 1] + seps[|seps| - 1]
  }

  /** The parts run together. */
  function Concat(parts: seq<string>): string
    decreases |parts|
  {
    if parts == [] then "" else Concat(parts[..|parts| - 1]) + parts[|parts| - 1]
  }

  /** What follows chord `i` of `n` in a long progression: nothing after the
      last chord, a dash and a line break after every fourth, a dash and a
      space otherwise. */
  function LineSeparator(i: int, n: int): string
  {
    if i + 1 >= n then "" else if (i + 1) % 4 == 0 then " -\n" else " - "
  }

  function LineSeparators(n: nat): (r: seq<string>)
    ensures |r| == n
    ensures forall i :: 0 <= i < n ==> r[i] == LineSeparator(i, n)
  {
    seq(n, i => LineSeparator(i, n))
  }

  /** The text `formatProgressionText(chords)` returns. Both branches put
      the chords in order, each followed by the separator `SeparatorOf` gives
      it: " - " between chords, " -\n" after every fourth chord of a long
      progression, and nothing after the last. */
  function FormattedText(chords: seq<string>): (r: string)
    ensures r == Weave(chords, Separators(|chords|))
  {
    if |chords| > 8 then
      assert Separators(|chords|) == LineSeparators(|chords|);
      Weave(chords, LineSeparators(|chords|))
    else if chords == [] then Join(chords, " - ")
    else
      ShortIsWeave(chords);
      Join(chords, " - ")
  }

  /** `formatProgressionText(chords)`: a joined line for up to eight chords,
      otherwise a loop that appends each chord and its separator. */
  method FormatProgressionText(chords: seq<string>) returns (text: string)
    ensures text == FormattedText(chords)
  {
    if |chords| <= 8 {
      return Join(chords, " - ");
    }
    ghost var seps := LineSeparators(|chords|);
    var formattedText := "";
    for i := 0 to |chords|
      invariant formattedText == Weave(chords[..i], seps[..i])
    {
      StepText(formattedText, chords[i], i, |chords|);
      WeaveSnoc(chords, seps, i);
      assert seps[i] == LineSeparator(i, |chords|);
      formattedText := formattedText + chords[i];
      if i < |chords| - 1 {
        formattedText := formattedText + " -";
        if (i + 1) % 4 == 0 {
          formattedText := formattedText + "\n";
        } else {
          formattedText := formattedText + " ";
        }
      }
    }
    assert chords[..|chords|] == chords;
    assert seps[..|chords|] == seps;
    text := formattedText;
  }

  /** What one pass of the formatting loop appends after the text so far:
      the chord and then its separator. */
  lemma StepText(prior: string, chord: string, i: int, n: int)
    ensures i + 1 >= n ==> prior + chord == prior + chord + LineSeparator(i, n)
    ensures i + 1 < n && (i + 1) % 4 == 0 ==> prior + chord + " -" + "\n" == prior + chord + LineSeparator(i, n)
    ensures i + 1 < n && (i + 1) % 4 != 0 ==> prior + chord + " -" + " " == prior + chord + LineSeparator(i, n)
  {
  }

  /** Weaving one more part appends it and its separator. */
  lemma WeaveSnoc(parts: seq<string>, seps: seq<string>, i: nat)
    requires |parts| == |seps| && i < |parts|
    ensures Weave(parts[..i + 1], seps[..i + 1]) == Weave(parts[..i], seps[..i]) + parts[i] + seps[i]
  {
    assert parts[..i + 1][..i] == parts[..i];
    assert seps[..i + 1][..i] == seps[..i];
  }

  // ---------------------------------------------------------------------
  // Properties of the chord line

  /** Every chord followed by the same separator: the join plus one trailing separator. */
  lemma {:induction false} WeaveUniform(parts: seq<string>, seps: seq<string>, sep: string)
    requires |parts| == |seps| > 0
    requires forall i :: 0 <= i < |seps| ==> seps[i] == sep
    ensures Weave(parts, seps) == Join(parts, sep) + sep
    decreases |parts|
  {
    if |parts| > 1 {
      WeaveUniform(parts[..|parts| - 1], seps[..|seps| - 1], sep);
    } else {
      assert parts[..0] == [];
    }
  }

  /** The separator the formatter puts after chord `i` of `n`, for either branch. */
  function SeparatorOf(i: int, n: int): string
  {
    if n <= 8 then (if i + 1 >= n then "" else " - ") else LineSeparator(i, n)
  }

  function Separators(n: nat): (r: seq<string>)
    ensures |r| == n
    ensures forall i :: 0 <= i < n ==> r[i] == SeparatorOf(i, n)
  {
    seq(n, i => SeparatorOf(i, n))
  }


  /** Up to eight chords: the join is each chord followed by " - ", except
      the last, which is followed by nothing. */
  lemma ShortIsWeave(chords: seq<string>)
    requires 0 < |chords| <= 8
    ensures Join(chords, " - ") == Weave(chords, Separators(|chords|))
  {
    WeaveIsJoin(chords, Separators(|chords|), " - ");
  }

  /** The same separator after every part but the last, and nothing after
      the last: the parts joined by that separator. */
  lemma WeaveIsJoin(parts: seq<string>, seps: seq<string>, sep: string)
    requires |parts| == |seps| > 0
    requires forall i :: 0 <= i < |seps| - 1 ==> seps[i] == sep
    requires seps[|seps| - 1] == ""
    ensures Weave(parts, seps) == Join(parts, sep)
  {
    var k := |parts| - 1;
    if k == 0 {
      assert parts[..0] == [];
    } else {
      WeaveUniform(parts[..k], seps[..k], sep);
    }
  }



  /** `n` empty separators. */
  function Blanks(n: nat): (r: seq<string>)
    ensures |r| == n
    ensures forall i :: 0 <= i < n ==> r[i] == ""
  {
    seq(n, i => "")
  }

  /** With every separator dropped the woven text is the parts run together. */
  lemma {:induction false} WeaveWithoutSeparators(parts: seq<string>)
    ensures Weave(parts, Blanks(|parts|)) == Concat(parts)
    decreases |parts|
  {
    if parts != [] {
      var n := |parts|;
      assert Blanks(n)[..n - 1] == Blanks(n - 1);
      WeaveWithoutSeparators(parts[..n - 1]);
    }
  }

  /** Separators of three characters each add three characters per part. */
  lemma {:induction false} WeaveLength(parts: seq<string>, seps: seq<string>)
    requires |parts| == |seps|
    requires forall i :: 0 <= i < |seps| ==> |seps[i]| == 3
    ensures |Weave(parts, seps)| == |Concat(parts)| + 3 * |parts|
    decreases |parts|
  {
    if parts != [] {
      WeaveLength(parts[..|parts| - 1], seps[..|seps| - 1]);
    }
  }

  /** Exactly three characters are inserted between consecutive chords, and
      removing the separators leaves the chords run together, each once and
      in order. */
  lemma SeparatorsOnlyBetweenChords(chords: seq<string>)
    requires |chords| > 0
    ensures FormattedText(chords) == Weave(chords, Separators(|chords|))
    ensures forall i :: 0 <= i < |chords| - 1 ==> |Separators(|chords|)[i]| == 3
    ensures Separators(|chords|)[|chords| - 1] == ""
    ensures |FormattedText(chords)| == |Concat(chords)| + 3 * (|chords| - 1)
    ensures Weave(chords, Blanks(|chords|)) == Concat(chords)
  {
    var n := |chords|;
    var seps := Separators(n);
    WeaveLength(chords[..n - 1], seps[..n - 1]);
    WeaveWithoutSeparators(chords);
  }

  /** The text ends with the last chord: there is no trailing separator. */
  lemma EndsWithLastChord(chords: seq<string>)
    requires |chords| > 0
    ensures EndsWith(FormattedText(chords), chords[|chords| - 1])
  {
  }

  /** No chord line has a line break when no chord contains one. */
  predicate OneLineEach(chords: seq<string>)
  {
    forall i :: 0 <= i < |chords| ==> '\n' !in chords[i]
  }

  /** The separator after chord `i` holds a line break exactly after every
      fourth chord but the last. */
  lemma SeparatorBreaks(i: int, n: int)
    ensures CountChar(LineSeparator(i, n), '\n') == (if i + 1 < n && (i + 1) % 4 == 0 then 1 else 0)
  {
    var sep := LineSeparator(i, n);
    if sep != "" {
      assert sep[..2] == " -" && sep[..1] == " ";
    }
  }

  /** Line breaks among the first `k` chords of a long progression of `n`. */
  lemma {:induction false} LineBreaksBefore(chords: seq<string>, k: nat)
    requires OneLineEach(chords) && 0 < |chords| && k <= |chords|
    ensures var n := |chords|;
      CountChar(Weave(chords[..k], LineSeparators(n)[..k]), '\n') == (if k < n then k / 4 else (n - 1) / 4)
  {
    var n := |chords|;
    if k > 0 {
      LineBreaksBefore(chords, k - 1);
      var seps := LineSeparators(n);
      assert chords[..k][..k - 1] == chords[..k - 1];
      assert seps[..k][..k - 1] == seps[..k - 1];
      var prior := Weave(chords[..k - 1], seps[..k - 1]);
      assert Weave(chords[..k], seps[..k]) == prior + chords[k - 1] + seps[k - 1];
      CountCharAppend(prior + chords[k - 1], seps[k - 1], '\n');
      CountCharAppend(prior, chords[k - 1], '\n');
      assert CountChar(chords[k - 1], '\n') == 0;
      SeparatorBreaks(k - 1, n);
      if k < n {
        if k % 4 == 0 {
          assert k / 4 == (k - 1) / 4 + 1;
        } else {
          assert k / 4 == (k - 1) / 4;
        }
      }
    } else {
      assert chords[..0] == [];
    }
  }

  /** A long progression of one-line chords breaks after every fourth chord:
      `(n - 1) / 4` line breaks; a short one stays on one line. */
  lemma LineBreakCount(chords: seq<string>)
    requires OneLineEach(chords)
    ensures |chords| > 8 ==> CountChar(FormattedText(chords), '\n') == (|chords| - 1) / 4
    ensures |chords| <= 8 ==> CountChar(FormattedText(chords), '\n') == 0
  {
    var n := |chords|;
    if n > 8 {
      LineBreaksBefore(chords, n);
      assert chords[..n] == chords;
      assert LineSeparators(n)[..n] == LineSeparators(n);
    } else if n > 0 {
        LineBreaksShort(chords, n);
      assert chords[..n] == chords;
      assert Separators(n)[..n] == Separators(n);
    }
  }

  lemma {:induction false} LineBreaksShort(chords: seq<string>, k: nat)
    requires OneLineEach(chords) && k <= |chords| <= 8
    ensures var n := |chords|;
      CountChar(Weave(chords[..k], Separators(n)[..k]), '\n') == 0
  {
    var n := |chords|;
    if k > 0 {
      LineBreaksShort(chords, k - 1);
      var seps := Separators(n);
      assert chords[..k][..k - 1] == chords[..k - 1];
      assert seps[..k][..k - 1] == seps[..k - 1];
      var prior := Weave(chords[..k - 1], seps[..k - 1]);
      CountCharAppend(prior + chords[k - 1], seps[k - 1], '\n');
      CountCharAppend(prior, chords[k - 1], '\n');
      assert CountChar(chords[k - 1], '\n') == 0;
      assert CountChar(seps[k - 1], '\n') == 0;
    } else {
      assert chords[..0] == [];
    }
  }

  /** The lines a long progression is laid out in: groups of four chords,
      each but the last ending in a dash. */
  function LineGroups(chords: seq<string>): seq<string>
    decreases |chords|
  {
    if |chords| <= 4 then [Join(chords, " - ")]
    else [Join(chords[..4], " - ") + " -"] + LineGroups(chords[4..])
  }

  /** Weaving distributes over concatenation. */
  lemma {:induction false} WeaveAppend(p1: seq<string>, s1: seq<string>, p2: seq<string>, s2: seq<string>)
    requires |p1| == |s1| && |p2| == |s2|
    ensures Weave(p1 + p2, s1 + s2) == Weave(p1, s1) + Weave(p2, s2)
    decreases |p2|
  {
    if p2 == [] {
      assert p1 + p2 == p1 && s1 + s2 == s1;
    } else {
      var k := |p2| - 1;
      assert (p1 + p2)[..|p1| + k] == p1 + p2[..k];
      assert (s1 + s2)[..|s1| + k] == s1 + s2[..k];
      WeaveAppend(p1, s1, p2[..k], s2[..k]);
      assert Weave(p1 + p2, s1 + s2) == Weave(p1 + p2[..k], s1 + s2[..k]) + p2[k] + s2[k];
      assert Weave(p2, s2) == Weave(p2[..k], s2[..k]) + p2[k] + s2[k];
    }
  }

  /** A join of one-line chords is one line. */
  lemma {:induction false} JoinOneLine(parts: seq<string>)
    requires OneLineEach(parts)
    ensures '\n' !in Join(parts, " - ")
    decreases |parts|
  {
    if |parts| > 1 {
      JoinOneLine(parts[..|parts| - 1]);
      NoBreakInConcat(Join(parts[..|parts| - 1], " - "), " - ");
      NoBreakInConcat(Join(parts[..|parts| - 1], " - ") + " - ", parts[|parts| - 1]);
    }
  }

  /** On the last line every chord but the last is followed by a dash and a
      space, and the last by nothing. */
  lemma LastLineSeparators(n: int, m: nat)
    requires n > 8 && m % 4 == 0 && m < n <= m + 4
    ensures var seps := LineSeparators(n)[m..];
      (forall i :: 0 <= i < n - m - 1 ==> seps[i] == " - ") && seps[n - m - 1] == ""
  {
    var seps := LineSeparators(n)[m..];
    forall i | 0 <= i < n - m - 1
      ensures seps[i] == " - "
    {
      assert seps[i] == LineSeparator(m + i, n);
      assert (m + i + 1) % 4 == i + 1;
    }
  }

  /** From a multiple of four within four chords of the end: the last line,
      chords joined by dashes with nothing after the last one. */
  lemma LastLine(chords: seq<string>, m: nat)
    requires |chords| > 8 && m % 4 == 0 && m < |chords| <= m + 4
    ensures Weave(chords[m..], LineSeparators(|chords|)[m..]) == Join(chords[m..], " - ")
  {
    LastLineSeparators(|chords|, m);
    WeaveIsJoin(chords[m..], LineSeparators(|chords|)[m..], " - ");
  }

  /** Four chords from a multiple of four, not the last ones: a full line
      ending in a dash and a line break. */
  lemma FullLine(chords: seq<string>, m: nat)
    requires |chords| > 8 && m % 4 == 0 && m + 4 < |chords|
    ensures Weave(chords[m..m + 4], LineSeparators(|chords|)[m..m + 4]) == Join(chords[m..m + 4], " - ") + " -\n"
  {
    var seps := LineSeparators(|chords|)[m..m + 4];
    var group := chords[m..m + 4];
    forall i | 0 <= i < 3
      ensures seps[..3][i] == " - "
    {
      assert (m + i + 1) % 4 == i + 1;
    }
    assert seps[3] == " -\n" by {
      assert (m + 4) % 4 == 0;
    }
    WeaveUniform(group[..3], seps[..3], " - ");
    assert group[..4] == group && seps[..4] == seps;
  }

  /** The chords from a multiple of four onward fill the lines of `LineGroups`. */
  lemma {:induction false} LinesFrom(chords: seq<string>, q: nat)
    requires OneLineEach(chords) && |chords| > 8 && 4 * q < |chords|
    ensures Lines(Weave(chords[4 * q..], LineSeparators(|chords|)[4 * q..])) == LineGroups(chords[4 * q..])
    decreases |chords| - 4 * q
  {
    var n := |chords|;
    var m := 4 * q;
    assert m % 4 == 0;
    var seps := LineSeparators(n);
    var rest := chords[m..];
    if n - m <= 4 {
      LastLine(chords, m);
      JoinOneLine(rest);
      SingleLine(Join(rest, " - "));
    } else {
      var head := Join(chords[m..m + 4], " - ");
      var after := Weave(chords[m + 4..], seps[m + 4..]);
      FirstLineSplit(chords, m);
      JoinOneLine(chords[m..m + 4]);
      LineThenRest(head, after);
      LinesFrom(chords, q + 1);
      assert rest[..4] == chords[m..m + 4] && rest[4..] == chords[m + 4..];
    }
  }

  /** A line ending in a dash and a line break, then more text. */
  lemma LineThenRest(head: string, after: string)
    requires '\n' !in head
    ensures Lines(head + " -\n" + after) == [head + " -"] + Lines(after)
  {
    DashBreak(head, after);
    NoBreakInConcat(head, " -");
    SingleLine(head + " -");
    LinesJoin(head + " -", after);
  }

  lemma DashBreak(x: string, after: string)
    ensures x + " -\n" + after == x + " -" + "\n" + after
  {
  }

  /** Text from a multiple of four, not within four chords of the end: a full
      line, a line break, and the text from four chords later. */
  lemma FirstLineSplit(chords: seq<string>, m: nat)
    requires |chords| > 8 && m % 4 == 0 && m + 4 < |chords|
    ensures var seps := LineSeparators(|chords|);
      Weave(chords[m..], seps[m..]) ==
        Join(chords[m..m + 4], " - ") + " -\n" + Weave(chords[m + 4..], seps[m + 4..])
  {
    var seps := LineSeparators(|chords|);
    var group := chords[m..m + 4];
    assert chords[m..] == group + chords[m + 4..];
    assert seps[m..] == seps[m..m + 4] + seps[m + 4..];
    WeaveAppend(group, seps[m..m + 4], chords[m + 4..], seps[m + 4..]);
    FullLine(chords, m);
  }

  /** A long progression of one-line chords is laid out four chords to a line,
      the last line holding the remaining one to four chords. */
  lemma LongLayout(chords: seq<string>)
    requires OneLineEach(chords) && |chords| > 8
    ensures Lines(FormattedText(chords)) == LineGroups(chords)
  {
    LinesFrom(chords, 0);
    assert chords[0..] == chords;
    assert LineSeparators(|chords|)[0..] == LineSeparators(|chords|);
  }

  /** Eleven chords make lines of four, four and three. */
  lemma ElevenChords(chords: seq<string>)
    requires OneLineEach(chords) && |chords| == 11
    ensures Lines(FormattedText(chords)) ==
      [Join(chords[..4], " - ") + " -", Join(chords[4..8], " - ") + " -", Join(chords[8..], " - ")]
  {
    LongLayout(chords);
    assert chords[4..][..4] == chords[4..8];
    assert chords[4..][4..] == chords[8..];
    assert LineGroups(chords[4..]) == [Join(chords[4..8], " - ") + " -"] + LineGroups(chords[8..]);
    assert LineGroups(chords[8..]) == [Join(chords[8..], " - ")];
  }

  // ---------------------------------------------------------------------
  // Export text and file names

  const ExportFooter: string := "Generated with Obey-inator"

  /** The text of the clipboard copy and of the text download. */
  function ExportText(pr: ChordProgression): (r: string)
    ensures StartsWith(r, "Song: " + pr.songName + "\n")
    ensures EndsWith(r, "\n\n" + ExportFooter)
  {
    var song := "Song: " + pr.songName;
    var key := "Key: " + pr.params.key + " " + pr.params.scaleType;
    var progression := "Progression: " + FormattedText(pr.chords);
    song + "\n" + key + "\n" + progression + "\n\n" + ExportFooter
  }

  /** The export text reads line by line: the song, the key and scale, the
      progression (one line or more), a blank line and the footer. */
  lemma ExportTextLines(pr: ChordProgression)
    requires '\n' !in pr.songName && '\n' !in pr.params.key && '\n' !in pr.params.scaleType
    ensures Lines(ExportText(pr)) ==
      ["Song: " + pr.songName, "Key: " + pr.params.key + " " + pr.params.scaleType]
      + Lines("Progression: " + FormattedText(pr.chords)) + ["", ExportFooter]
  {
    var song := "Song: " + pr.songName;
    var key := "Key: " + pr.params.key + " " + pr.params.scaleType;
    NoBreakInConcat("Song: ", pr.songName);
    NoBreakInConcat("Key: ", pr.params.key);
    NoBreakInConcat("Key: " + pr.params.key, " ");
    NoBreakInConcat("Key: " + pr.params.key + " ", pr.params.scaleType);
    assert '\n' !in ExportFooter;
    FiveLines(song, key, "Progression: " + FormattedText(pr.chords), ExportFooter);
  }

  /** Three single lines and a blank line around a block of text. */
  lemma FiveLines(a: string, b: string, c: string, e: string)
    requires '\n' !in a && '\n' !in b && '\n' !in e
    ensures Lines(a + "\n" + b + "\n" + c + "\n\n" + e) == [a, b] + Lines(c) + ["", e]
  {
    var x1 := a + "\n" + b;
    TwoLines(a, b);
    var x2 := x1 + "\n" + c;
    LinesJoin(x1, c);
    BlankLineBetween(x2, e);
    SingleLine(e);
  }

  /** Two break-free lines joined by a break. */
  lemma TwoLines(a: string, b: string)
    requires '\n' !in a && '\n' !in b
    ensures Lines(a + "\n" + b) == [a, b]
  {
    LinesJoin(a, b);
    SingleLine(a);
    SingleLine(b);
  }


  const NoProgressionText: string := "No progression to copy"

  /** The clipboard text: the export text, or the placeholder with no progression. */
  function ClipboardText(progression: Option<ChordProgression>): (r: string)
    ensures r == NoProgressionText <==> progression.None?
    ensures progression.Some? ==> r == ExportText(progression.value)
  {
    match progression
    case None => NoProgressionText
    case Some(pr) =>
      var text := ExportText(pr);
      assert text[0] == 'S' != NoProgressionText[0];
      text
  }

  /** `chord-progression-<key>-<scale in lower case>.txt`. */
  function TextFileName(pr: ChordProgression): (r: string)
    ensures StartsWith(r, "chord-progression-") && EndsWith(r, ".txt")
    ensures |r| == |pr.params.key| + |pr.params.scaleType| + 23
  {
    "chord-progression-" + pr.params.key + "-" + ToLower(pr.params.scaleType) + ".txt"
  }

  /** `<songName>-<key>-<scale in lower case>.mid`. */
  function MidiFileName(pr: ChordProgression): (r: string)
    ensures StartsWith(r, pr.songName + "-") && EndsWith(r, ".mid")
    ensures |r| == |pr.songName| + |pr.params.key| + |pr.params.scaleType| + 6
  {
    pr.songName + "-" + pr.params.key + "-" + ToLower(pr.params.scaleType) + ".mid"
  }

  /** Both file names end in the same key and lower-cased scale, and differ
      only in what comes before it and in the extension. */
  lemma FileNamesShareStem(pr: ChordProgression)
    ensures var stem := "-" + pr.params.key + "-" + ToLower(pr.params.scaleType);
      TextFileName(pr) == "chord-progression" + stem + ".txt" &&
      MidiFileName(pr) == pr.songName + stem + ".mid"
  {
  }

  datatype TextFile = TextFile(filename: string, contents: string)

  datatype MidiFile = MidiFile(filename: string, events: seq<MidiEvent>)

  /** `handleDownloadText`: nothing without a progression, otherwise the
      clipboard text under the text file name. */
  function TextDownload(progression: Option<ChordProgression>): (r: Option<TextFile>)
    ensures r.Some? <==> progression.Some?
    ensures r.Some? ==> r.value.contents == ClipboardText(progression) && EndsWith(r.value.filename, ".txt")
  {
    match progression
    case None => None
    case Some(pr) => Some(TextFile(TextFileName(pr), ExportText(pr)))
  }

  /** `handleDownloadMidi`: nothing without a progression, otherwise the
      track for its chords in its key under the MIDI file name. */
  function MidiDownload(progression: Option<ChordProgression>): (r: Option<MidiFile>)
    ensures r.Some? <==> progression.Some?
    ensures r.Some? ==>
      r.value.events == MidiEventsOf(progression.value.chords, progression.value.params.key) &&
      EndsWith(r.value.filename, ".mid") && StartsWith(r.value.filename, progression.value.songName)
  {
    match progression
    case None => None
    case Some(pr) => Some(MidiFile(MidiFileName(pr), MidiEventsOf(pr.chords, pr.params.key)))
  }
}

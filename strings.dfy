/** The JavaScript string operations the core relies on, over `seq<char>`:
    `startsWith`, `includes`, `toLowerCase` (ASCII letters only) and the
    decimal rendering of an integer inside a template literal. */
module Strings {

  /** `s.startsWith(prefix)`: a case-sensitive prefix test. */
  predicate StartsWith(s: string, prefix: string)
  {
    |prefix| <= |s| && s[..|prefix|] == prefix
  }

  /** `s.includes(part)`, scanning from the left. */
  predicate Includes(s: string, part: string)
    decreases |s|
  {
    StartsWith(s, part) || (|s| > 0 && Includes(s[1..], part))
  }

  /** `part` occurs in `s` at offset `i`. */
  predicate OccursAt(s: string, part: string, i: int)
  {
    0 <= i <= |s| - |part| && s[i..i + |part|] == part
  }

  /** `Includes` agrees with the usual definition: `part` occurs at some offset. */
  lemma {:induction false} IncludesIffOccurs(s: string, part: string)
    ensures Includes(s, part) <==> exists i :: OccursAt(s, part, i)
    decreases |s|
  {
    if Includes(s, part) {
      if StartsWith(s, part) {
        assert OccursAt(s, part, 0);
      } else {
        IncludesIffOccurs(s[1..], part);
        var i :| OccursAt(s[1..], part, i);
        assert s[i + 1..i + 1 + |part|] == s[1..][i..i + |part|];
        assert OccursAt(s, part, i + 1);
      }
    }
    if exists i :: OccursAt(s, part, i) {
      var i :| OccursAt(s, part, i);
      if i > 0 {
        assert s[1..][i - 1..i - 1 + |part|] == s[i..i + |part|];
        assert OccursAt(s[1..], part, i - 1);
        IncludesIffOccurs(s[1..], part);
      }
    }
  }

  /** Lower-casing of one character; only ASCII letters change. */
  function LowerChar(c: char): char
  {
    if 'A' <= c <= 'Z' then (c as int + 32) as char else c
  }

  /** `s.toLowerCase()` restricted to ASCII: same length, each character lowered. */
  function ToLower(s: string): (r: string)
    ensures |r| == |s|
    ensures forall i :: 0 <= i < |s| ==> r[i] == LowerChar(s[i])
  {
    if s == [] then [] else [LowerChar(s[0])] + ToLower(s[1..])
  }

  /** Lower-casing leaves no upper-case ASCII letter and is idempotent. */
  lemma ToLowerIdempotent(s: string)
    ensures forall i :: 0 <= i < |s| ==> !('A' <= ToLower(s)[i] <= 'Z')
    ensures ToLower(ToLower(s)) == ToLower(s)
  {
  }

  predicate IsDigit(c: char)
  {
    '0' <= c <= '9'
  }

  predicate AllDigits(s: string)
  {
    forall i :: 0 <= i < |s| ==> IsDigit(s[i])
  }

  function DigitChar(d: int): (c: char)
    requires 0 <= d < 10
    ensures IsDigit(c) && c as int - '0' as int == d
  {
    ('0' as int + d) as char
  }

  /** The decimal rendering of a natural number, as `${n}` produces it. */
  function NatToDecimal(n: nat): (s: string)
    ensures |s| >= 1 && AllDigits(s)
    ensures |s| > 1 ==> s[0] != '0'
    decreases n
  {
    if n < 10 then [DigitChar(n)] else NatToDecimal(n / 10) + [DigitChar(n % 10)]
  }

  /** The value of a string of decimal digits. */
  function DecimalValue(s: string): nat
    requires AllDigits(s)
  {
    if s == [] then 0 else DecimalValue(s[..|s| - 1]) * 10 + (s[|s| - 1] as int - '0' as int)
  }

  /** Reading back the rendering of `n` gives `n`. */
  lemma {:induction false} DecimalRoundTrip(n: nat)
    ensures DecimalValue(NatToDecimal(n)) == n
    decreases n
  {
    if n >= 10 {
      DecimalRoundTrip(n / 10);
      var s := NatToDecimal(n);
      assert s[..|s| - 1] == NatToDecimal(n / 10);
    }
  }

  /** The decimal rendering of an integer, with a leading '-' when negative. */
  function IntToDecimal(x: int): (s: string)
    ensures |s| >= 1
    ensures x >= 0 <==> AllDigits(s)
    ensures x < 0 ==> s[0] == '-'
  {
    if x < 0 then
      var s := "-" + NatToDecimal(-x);
      assert !IsDigit(s[0]);
      s
    else NatToDecimal(x)
  }

  /** `s.endsWith(suffix)`. */
  predicate EndsWith(s: string, suffix: string)
  {
    |suffix| <= |s| && s[|s| - |suffix|..] == suffix
  }

  /** The number of occurrences of the character `c` in `s`. */
  function CountChar(s: string, c: char): (n: nat)
    ensures n <= |s|
    ensures n == 0 <==> c !in s
    decreases |s|
  {
    if s == [] then 0 else CountChar(s[..|s| - 1], c) + (if s[|s| - 1] == c then 1 else 0)
  }

  /** Counting distributes over concatenation. */
  lemma {:induction false} CountCharAppend(a: string, b: string, c: char)
    ensures CountChar(a + b, c) == CountChar(a, c) + CountChar(b, c)
    decreases |b|
  {
    if b == [] {
      assert a + b == a;
    } else {
      assert (a + b)[..|a + b| - 1] == a + b[..|b| - 1];
      CountCharAppend(a, b[..|b| - 1], c);
    }
  }

  /** `lines` with the character `c` added to its last line. */
  function ExtendLast(lines: seq<string>, c: char): (r: seq<string>)
    requires |lines| >= 1
    ensures |r| == |lines|
  {
    lines[..|lines| - 1] + [lines[|lines| - 1] + [c]]
  }

  /** Extending the last line of two runs of lines extends the second run. */
  lemma ExtendLastAppend(before: seq<string>, tail: seq<string>, c: char)
    requires |tail| >= 1
    ensures ExtendLast(before + tail, c) == before + ExtendLast(tail, c)
  {
    var all := before + tail;
    assert all[..|all| - 1] == before + tail[..|tail| - 1];
  }

  /** The lines of `s`: the pieces between its '\n' characters (`s.split('\n')`). */
  function Lines(s: string): (r: seq<string>)
    ensures |r| >= 1
    decreases |s|
  {
    if s == [] then [""]
    else if s[|s| - 1] == '\n' then Lines(s[..|s| - 1]) + [""]
    else ExtendLast(Lines(s[..|s| - 1]), s[|s| - 1])
  }

  /** Appending one character: a line break opens a new empty line, any
      other character extends the last line. */
  lemma LinesSnoc(s: string, c: char)
    ensures Lines(s + [c]) == if c == '\n' then Lines(s) + [""] else ExtendLast(Lines(s), c)
  {
    assert (s + [c])[..|s|] == s;
  }

  /** There is one line more than there are line breaks, and no line holds a
      line break. */
  lemma {:induction false} LinesShape(s: string)
    ensures |Lines(s)| == CountChar(s, '\n') + 1
    ensures forall j :: 0 <= j < |Lines(s)| ==> '\n' !in Lines(s)[j]
    decreases |s|
  {
    if s != [] {
      var t, c := s[..|s| - 1], s[|s| - 1];
      assert s == t + [c];
      LinesShape(t);
      LinesSnoc(t, c);
    }
  }

  /** Appending the same character after a common tail of lines. */
  lemma LinesStep(s: string, t: string, before: seq<string>, c: char)
    requires Lines(s) == before + Lines(t)
    ensures Lines(s + [c]) == before + Lines(t + [c])
  {
    LinesSnoc(s, c);
    LinesSnoc(t, c);
    if c != '\n' {
      ExtendLastAppend(before, Lines(t), c);
    }
  }

  /** Splitting at a line break: the lines before it, then the lines after it. */
  lemma {:induction false} LinesJoin(a: string, b: string)
    ensures Lines(a + "\n" + b) == Lines(a) + Lines(b)
    decreases |b|
  {
    if b == [] {
      assert a + "\n" + b == a + ['\n'];
      LinesSnoc(a, '\n');
    } else {
      var b', c := b[..|b| - 1], b[|b| - 1];
      var s' := a + "\n" + b';
      assert a + "\n" + b == s' + [c];
      assert b == b' + [c];
      LinesJoin(a, b');
      LinesStep(s', b', Lines(a), c);
    }
  }

  /** A string without a line break is a single line. */
  lemma {:induction false} SingleLine(s: string)
    requires '\n' !in s
    ensures Lines(s) == [s]
    decreases |s|
  {
    if s != [] {
      var t, c := s[..|s| - 1], s[|s| - 1];
      assert s == t + [c];
      SingleLine(t);
      LinesSnoc(t, c);
      assert ExtendLast([t], c) == [t + [c]];
    }
  }

  /** Two line breaks in a row leave an empty line between the two texts. */
  lemma BlankLineBetween(a: string, b: string)
    ensures Lines(a + "\n\n" + b) == Lines(a) + [""] + Lines(b)
  {
    var x := a + "\n" + "";
    assert a + "\n\n" + b == x + "\n" + b;
    LinesJoin(a, "");
    LinesJoin(x, b);
    SingleLine("");
  }

  /** Joining two pieces without a line break gives none. */
  lemma NoBreakInConcat(a: string, b: string)
    requires '\n' !in a && '\n' !in b
    ensures '\n' !in a + b
  {
  }

  /** The lines joined by '\n' (`lines.join('\n')`). */
  function JoinLines(lines: seq<string>): string
    decreases |lines|
  {
    if lines == [] then ""
    else if |lines| == 1 then lines[0]
    else JoinLines(lines[..|lines| - 1]) + "\n" + lines[|lines| - 1]
  }

  /** Splitting joined lines gives the lines back, when none of them holds a
      line break. */
  lemma {:induction false} LinesOfJoinLines(lines: seq<string>)
    requires |lines| > 0
    requires forall j :: 0 <= j < |lines| ==> '\n' !in lines[j]
    ensures Lines(JoinLines(lines)) == lines
    decreases |lines|
  {
    var n := |lines|;
    if n == 1 {
      SingleLine(lines[0]);
    } else {
      var init := lines[..n - 1];
      LinesOfJoinLines(init);
      AppendLine(JoinLines(init), lines[n - 1]);
      assert init + [lines[n - 1]] == lines;
    }
  }

  /** A break and a break-free line after a text add that one line. */
  lemma AppendLine(text: string, line: string)
    requires '\n' !in line
    ensures Lines(text + "\n" + line) == Lines(text) + [line]
  {
    LinesJoin(text, line);
    SingleLine(line);
  }
}

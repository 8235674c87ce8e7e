/**
 * The chord-diagram component: reading `Name: x02210` lines out of a block
 * of text, and deriving one diagram's starting fret and per-string markers
 * from its six fret characters.
 */
module ChordDiagram {
  import opened Wrappers
  import opened JsString

  /** Frets drawn in one diagram. */
  const FretCount: nat := 5

  /** One accepted line: the chord name and its fret characters, both trimmed. */
  datatype Chord = Chord(name: string, frets: string)

  // ---------------------------------------------------------------------
  // Line parsing
  // ---------------------------------------------------------------------

  /** The text before the first colon. */
  function NameField(line: string): string
    requires ':' in line
  {
    line[..IndexOf(line, ':')]
  }

  /** The text between the first colon and the second one (or the end of the line). */
  function FretField(line: string): string
    requires ':' in line
  {
    var rest := line[IndexOf(line, ':') + 1..];
    if ':' in rest then rest[..IndexOf(rest, ':')] else rest
  }

  /** The first two pieces of `line.split(':')` are the name field and the fret field. */
  lemma FieldsOfSplit(line: string)
    requires ':' in line
    ensures |Split(line, ':')| >= 2
    ensures Split(line, ':')[0] == NameField(line)
    ensures Split(line, ':')[1] == FretField(line)
  {
    var rest := line[IndexOf(line, ':') + 1..];
    SplitAtFirst(line, ':');
    if ':' in rest {
      SplitHead(rest, ':');
    } else {
      SplitNoSeparator(rest, ':');
    }
  }

  /**
   * One line of `diagrams`: `const [name, frets] = line.split(':')`, kept
   * when the name is non-empty before trimming and the frets trim to six
   * characters; the entry holds both trimmed.
   */
  function ParseLine(line: string): (r: Option<Chord>)
    ensures r.Some? <==> ':' in line && NameField(line) != [] && |Trim(FretField(line))| == 6
    ensures r.Some? ==> r.value == Chord(Trim(NameField(line)), Trim(FretField(line)))
  {
    SplitCount(line, ':');
    assert ':' in line ==> Split(line, ':')[0] == NameField(line) && Split(line, ':')[1] == FretField(line) by {
      if ':' in line {
        FieldsOfSplit(line);
      }
    }
    ParseFields(Split(line, ':'))
  }

  /** The destructuring and the acceptance test, on the pieces of the split. */
  function ParseFields(parts: seq<string>): (r: Option<Chord>)
    ensures r.Some? <==> |parts| >= 2 && parts[0] != [] && |Trim(parts[1])| == 6
    ensures r.Some? ==> r.value.name == Trim(parts[0]) && r.value.frets == Trim(parts[1])
    ensures r.Some? ==> |r.value.frets| == 6 && IsTrimmed(r.value.frets)
  {
    if |parts| >= 2 && parts[0] != [] && parts[1] != [] && |Trim(parts[1])| == 6 then
      Some(Chord(Trim(parts[0]), Trim(parts[1])))
    else
      None
  }

  /** Whatever follows a second colon is ignored. */
  lemma SecondColonIgnored(line: string, tail: string)
    requires ':' in line
    ensures ParseLine(line + [':'] + tail) == ParseLine(line)
  {
    SplitConcat(line, tail, ':');
    SplitCount(line, ':');
    SplitCount(line + [':'] + tail, ':');
    var whole := Split(line + [':'] + tail, ':');
    assert whole[0] == Split(line, ':')[0] && whole[1] == Split(line, ':')[1];
  }

  /**
   * A blank name passes the test, which looks at it before trimming, and is
   * kept as the empty name (as in the line `" :x02210"`).
   */
  lemma BlankNameAccepted(name: string, frets: string)
    requires name != [] && AllWhitespace(name)
    requires ':' !in frets && |frets| == 6 && IsTrimmed(frets)
    ensures ParseLine(name + [':'] + frets) == Some(Chord([], frets))
  {
    SplitConcat(name, frets, ':');
    SplitNoSeparator(name, ':');
    SplitNoSeparator(frets, ':');
    assert Split(name + [':'] + frets, ':') == [name, frets];
    TrimEmpty(name);
    TrimmedIsFixed(frets);
  }

  /** The entry a line contributes: its chord when accepted, nothing otherwise. */
  function EntryOf(line: string): seq<Chord> {
    var parsed := ParseLine(line);
    if parsed.Some? then [parsed.value] else []
  }

  /** The accepted lines, in order. */
  function ParseLines(lines: seq<string>): (r: seq<Chord>)
    ensures |r| <= |lines|
    ensures forall c :: c in r ==> |c.frets| == 6 && IsTrimmed(c.name) && IsTrimmed(c.frets)
  {
    if lines == [] then [] else EntryOf(lines[0]) + ParseLines(lines[1..])
  }

  /** Parsing respects concatenation, so entries keep the order of their lines. */
  lemma {:induction false} ParseLinesAppend(a: seq<string>, b: seq<string>)
    ensures ParseLines(a + b) == ParseLines(a) + ParseLines(b)
  {
    if a == [] {
      assert a + b == b;
    } else {
      assert (a + b)[0] == a[0];
      assert (a + b)[1..] == a[1..] + b;
      ParseLinesAppend(a[1..], b);
      AppendAssoc(EntryOf(a[0]), ParseLines(a[1..]), ParseLines(b));
    }
  }

  /** Every entry is contributed by some input line. */
  lemma {:induction false} ParsedFromSomeLine(lines: seq<string>, c: Chord)
    requires c in ParseLines(lines)
    ensures exists k :: 0 <= k < |lines| && EntryOf(lines[k]) == [c]
  {
    var head := EntryOf(lines[0]);
    assert ParseLines(lines) == head + ParseLines(lines[1..]);
    if c in head {
      assert EntryOf(lines[0]) == [c];
    } else {
      ParsedFromSomeLine(lines[1..], c);
      var k :| 0 <= k < |lines[1..]| && EntryOf(lines[1..][k]) == [c];
      TailIndex(lines, k);
    }
  }

  /** Position `k` of the lines after the first is position `k + 1` of all of them. */
  lemma TailIndex(lines: seq<string>, k: nat)
    requires k < |lines| - 1
    ensures lines[1..][k] == lines[k + 1]
  {
  }

  /**
   * The `ChordDiagram` component: nothing for empty input; otherwise the
   * accepted lines of the trimmed text, or nothing when none is accepted.
   */
  function ParseDiagrams(diagrams: string): (r: Option<seq<Chord>>)
    ensures r.None? <==> diagrams == [] || ParseLines(Split(Trim(diagrams), '\n')) == []
    ensures r.Some? ==> r.value == ParseLines(Split(Trim(diagrams), '\n'))
    ensures r.Some? ==> r.value != [] && forall c :: c in r.value ==> |c.frets| == 6
  {
    if diagrams == [] then None
    else
      var parsed := ParseLines(Split(Trim(diagrams), '\n'));
      if parsed == [] then None else Some(parsed)
  }

  // ---------------------------------------------------------------------
  // One diagram
  // ---------------------------------------------------------------------

  /** `parseInt(c, 10)` on a one-character string: the digit's value, or NaN (`None`). */
  function ParseDigit(c: char): (r: Option<nat>)
    ensures r.Some? <==> '0' <= c <= '9'
    ensures r.Some? ==> r.value < 10 && Digit(r.value) == c
  {
    if '0' <= c <= '9' then Some((c as int) - ('0' as int)) else None
  }

  /** A string pressed at a fret: a digit other than 0. */
  predicate IsFretted(c: char) {
    ParseDigit(c).Some? && ParseDigit(c).value > 0
  }

  /** `relevantFrets`: the fretted values, in string order. */
  function RelevantFrets(frets: string): (r: seq<nat>)
    ensures r == [] <==> forall k :: 0 <= k < |frets| ==> !IsFretted(frets[k])
    ensures forall k :: 0 <= k < |frets| && IsFretted(frets[k]) ==> ParseDigit(frets[k]).value in r
    ensures forall v :: v in r ==> exists k :: 0 <= k < |frets| && IsFretted(frets[k]) && ParseDigit(frets[k]).value == v
  {
    if frets == [] then []
    else
      var rest := RelevantFrets(frets[1..]);
      assert forall k :: 1 <= k < |frets| ==> frets[k] == frets[1..][k - 1];
      (if IsFretted(frets[0]) then [ParseDigit(frets[0]).value] else []) + rest
  }

  /** `Math.min(...xs)` of a non-empty list. */
  function MinOf(xs: seq<nat>): (m: nat)
    requires xs != []
    ensures m in xs && forall x :: x in xs ==> m <= x
  {
    if |xs| == 1 then xs[0]
    else
      var m := MinOf(xs[1..]);
      assert forall x :: x in xs[1..] ==> x in xs;
      assert forall x :: x in xs ==> x == xs[0] || x in xs[1..];
      if xs[0] <= m then xs[0] else m
  }

  /** `minFret`: the lowest fretted value, or 1 when no string is fretted. */
  function MinFret(frets: string): (m: nat)
    ensures forall k :: 0 <= k < |frets| && IsFretted(frets[k]) ==> m <= ParseDigit(frets[k]).value
    ensures (exists k :: 0 <= k < |frets| && IsFretted(frets[k]) && ParseDigit(frets[k]).value == m)
         || (m == 1 && forall k :: 0 <= k < |frets| ==> !IsFretted(frets[k]))
  {
    var relevant := RelevantFrets(frets);
    if relevant != [] then MinOf(relevant) else 1
  }

  /** `startFret`: one below the lowest fretted value when that is above 3, else 1. */
  function StartFret(frets: string): (s: nat)
    ensures s >= 1
    ensures forall k :: 0 <= k < |frets| && IsFretted(frets[k]) ==> s <= ParseDigit(frets[k]).value
    ensures s > 1 <==> MinFret(frets) > FretCount - 2
    ensures s > 1 ==> s == MinFret(frets) - 1
  {
    var minFret := MinFret(frets);
    if minFret > FretCount - 2 then minFret - 1 else 1
  }

  datatype Marker = Dot(fret: nat) | Muted | Open | NoMarker

  /** The marker over one string: a dot at its fret, "x" for muted, "o" for open, otherwise nothing. */
  function MarkerOf(c: char): (m: Marker)
    ensures m.Dot? <==> IsFretted(c)
    ensures m.Dot? ==> m.fret == ParseDigit(c).value && 1 <= m.fret <= 9
    ensures m == Muted <==> c == 'x' || c == 'X'
    ensures m == Open <==> c == '0'
    ensures m == NoMarker <==> !IsFretted(c) && c != 'x' && c != 'X' && c != '0'
  {
    if IsFretted(c) then Dot(ParseDigit(c).value)
    else if c == 'x' || c == 'X' then Muted
    else if c == '0' then Open
    else NoMarker
  }

  /** What `SingleChordDiagram` draws: the name, the starting fret (labelled when above 1), one marker per string. */
  datatype DiagramView = DiagramView(name: string, startFret: nat, showStartFret: bool, markers: seq<Marker>)

  function Diagram(chord: Chord): (d: DiagramView)
    ensures |d.markers| == |chord.frets|
    ensures forall k :: 0 <= k < |chord.frets| ==> d.markers[k] == MarkerOf(chord.frets[k])
    ensures forall k :: 0 <= k < |d.markers| && d.markers[k].Dot? ==> d.startFret <= d.markers[k].fret
    ensures d.name == chord.name && d.startFret == StartFret(chord.frets)
    ensures d.startFret >= 1 && (d.showStartFret <==> d.startFret > 1)
  {
    var startFret := StartFret(chord.frets);
    var markers := seq(|chord.frets|, k requires 0 <= k < |chord.frets| => MarkerOf(chord.frets[k]));
    DiagramView(chord.name, startFret, startFret > 1, markers)
  }

  /** Every diagram drawn from the text has exactly six markers, one per string. */
  lemma SixMarkersPerDiagram(diagrams: string, c: Chord)
    requires ParseDiagrams(diagrams).Some? && c in ParseDiagrams(diagrams).value
    ensures |Diagram(c).markers| == 6
  {
  }
}

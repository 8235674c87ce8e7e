/**
 * The tablature component: keeping the lines of a tab block that contain a
 * bar, and cutting each at its first bar into a string name and the rest.
 */
module Tablature {
  import opened JsString

  /** One rendered row: the label left of the first bar and everything after it. */
  datatype TabLine = TabLine(stringName: string, tabContent: string)

  /** What the component renders: nothing, the raw text as a block, or the rows. */
  datatype TabView = Nothing | Preformatted(text: string) | Rows(lines: seq<TabLine>)

  /** What one line contributes: itself trimmed when the trimmed line holds a bar. */
  function KeptLine(line: string): seq<string> {
    var trimmed := Trim(line);
    if '|' in trimmed then [trimmed] else []
  }

  /** A line contributes nothing exactly when it has no bar. */
  lemma KeptLineEmpty(line: string)
    ensures KeptLine(line) == [] <==> '|' !in line
  {
    TrimKeeps(line, '|');
  }

  /** `.map(line => line.trim()).filter(line => line.includes('|'))`. */
  function KeepBarLines(lines: seq<string>): (r: seq<string>)
    ensures |r| <= |lines|
    ensures forall l :: l in r ==> '|' in l && IsTrimmed(l)
  {
    if lines == [] then [] else KeptLine(lines[0]) + KeepBarLines(lines[1..])
  }

  /** Filtering respects concatenation, so kept lines stay in their original order. */
  lemma {:induction false} KeepBarLinesAppend(a: seq<string>, b: seq<string>)
    ensures KeepBarLines(a + b) == KeepBarLines(a) + KeepBarLines(b)
  {
    if a == [] {
      assert a + b == b;
    } else {
      assert (a + b)[0] == a[0];
      assert (a + b)[1..] == a[1..] + b;
      KeepBarLinesAppend(a[1..], b);
      AppendAssoc(KeptLine(a[0]), KeepBarLines(a[1..]), KeepBarLines(b));
    }
  }

  /** Nothing is kept exactly when no line contains a bar (trimming never removes one). */
  lemma {:induction false} KeepBarLinesEmpty(lines: seq<string>)
    ensures KeepBarLines(lines) == [] <==> forall k :: 0 <= k < |lines| ==> '|' !in lines[k]
  {
    if lines != [] {
      KeptLineEmpty(lines[0]);
      KeepBarLinesEmpty(lines[1..]);
      BarFreeCons(lines);
    }
  }

  /** No line has a bar exactly when the first has none and no later one has. */
  lemma BarFreeCons(lines: seq<string>)
    requires lines != []
    ensures (forall k :: 0 <= k < |lines| ==> '|' !in lines[k])
      <==> '|' !in lines[0] && forall k :: 0 <= k < |lines[1..]| ==> '|' !in lines[1..][k]
  {
    assert forall k :: 1 <= k < |lines| ==> lines[k] == lines[1..][k - 1];
  }

  /** The lines kept from `tabData`: those of its trimmed text that contain a bar, trimmed. */
  function TabLines(tabData: string): (r: seq<string>)
    ensures |r| <= |Split(Trim(tabData), '\n')|
    ensures forall l :: l in r ==> '|' in l && IsTrimmed(l)
  {
    KeepBarLines(Split(Trim(tabData), '\n'))
  }

  /**
   * One row: `parts = line.split('|')`, the name is `parts[0].trim()`, the
   * content is `parts.slice(1).join('|')`.
   */
  function SplitTabLine(line: string): (r: TabLine)
    ensures '|' !in r.stringName && IsTrimmed(r.stringName)
  {
    var parts := Split(line, '|');
    TrimKeeps(parts[0], '|');
    TabLine(Trim(parts[0]), Join(parts[1..], '|'))
  }

  /**
   * A row cuts its line at the first bar: the name is the trimmed text before
   * it, the content is everything after it, further bars included.
   */
  lemma SplitTabLineAtFirstBar(line: string)
    requires '|' in line
    ensures SplitTabLine(line).stringName == Trim(line[..IndexOf(line, '|')])
    ensures SplitTabLine(line).tabContent == line[IndexOf(line, '|') + 1..]
    ensures line == line[..IndexOf(line, '|')] + "|" + SplitTabLine(line).tabContent
  {
    var i := IndexOf(line, '|');
    SplitHead(line, '|');
    assert line == line[..i] + [line[i]] + line[i + 1..];
  }

  /** A line with no bar is all name and no content. */
  lemma SplitTabLineWithoutBar(line: string)
    requires '|' !in line
    ensures SplitTabLine(line) == TabLine(Trim(line), "")
  {
    SplitNoSeparator(line, '|');
    var parts := Split(line, '|');
    assert parts == [line];
    assert parts[1..] == [];
    assert Join(parts[1..], '|') == [];
  }

  /**
   * The `Tablature` component: nothing for empty input; the raw text when no
   * line contains a bar; otherwise one row per kept line.
   */
  function Render(tabData: string): (v: TabView)
    ensures tabData == [] <==> v == Nothing
    ensures v.Preformatted? <==> tabData != [] && TabLines(tabData) == []
    ensures v.Preformatted? ==> v.text == tabData
    ensures v.Rows? ==> |v.lines| == |TabLines(tabData)|
    ensures v.Rows? ==> forall k :: 0 <= k < |v.lines| ==> v.lines[k] == SplitTabLine(TabLines(tabData)[k])
  {
    if tabData == [] then Nothing
    else
      var lines := TabLines(tabData);
      if lines == [] then Preformatted(tabData)
      else Rows(seq(|lines|, k requires 0 <= k < |lines| => SplitTabLine(lines[k])))
  }

  /** Splitting into lines neither adds nor loses a bar. */
  lemma LinesHoldBar(text: string)
    ensures KeepBarLines(Split(text, '\n')) == [] <==> '|' !in text
  {
    SplitKeeps(text, '\n', '|');
    KeepBarLinesEmpty(Split(text, '\n'));
  }

  /** No line is kept exactly when the text has no bar at all. */
  lemma TabLinesEmpty(tabData: string)
    ensures TabLines(tabData) == [] <==> '|' !in tabData
  {
    LinesHoldBar(Trim(tabData));
    TrimKeeps(tabData, '|');
  }

  /** The raw-text fallback is taken exactly when the text has no bar at all. */
  lemma FallbackIffNoBar(tabData: string)
    requires tabData != []
    ensures Render(tabData).Preformatted? <==> '|' !in tabData
  {
    TabLinesEmpty(tabData);
  }
}

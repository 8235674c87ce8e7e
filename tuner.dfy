/**
 * The display rules of the tuner screen: which standard string a reading
 * targets, the needle angle, the in-tune test, the 21 detune bars and their
 * colours, the Sharp/Flat label and the list of open strings.
 */
module Tuner {
  import opened Wrappers
  import opened Types
  import opened JsString
  import opened Constants
  import PitchDetection

  function Abs(x: real): real {
    if x < 0.0 then -x else x
  }

  // ---------------------------------------------------------------------
  // Target string
  // ---------------------------------------------------------------------

  /** The template literal `${noteName}${octave}`; an undefined name prints as "undefined". */
  function FullNoteName(details: NoteDetails): (r: string)
    ensures details.noteName.Some? && 0 <= details.octave < 10 ==>
      r == details.noteName.value + [Digit(details.octave)]
    ensures details.noteName.None? ==> |r| > 9 && r[..9] == "undefined"
  {
    details.noteName.GetOr("undefined") + IntString(details.octave)
  }

  /** The index of the first entry named `name` (what `Array.prototype.find` stops at), or `|notes|`. */
  function FirstNamed(notes: seq<TuningNote>, name: string): (k: nat)
    ensures k <= |notes|
    ensures k < |notes| ==> notes[k].name == name
    ensures forall j :: 0 <= j < k ==> notes[j].name != name
  {
    if notes == [] then 0
    else if notes[0].name == name then 0
    else 1 + FirstNamed(notes[1..], name)
  }

  /**
   * `getTuningTarget`: nothing without a reading; otherwise the first
   * standard string whose name is the reading's note name and octave, or
   * nothing when no string has that name.
   */
  function TuningTarget(details: Option<NoteDetails>): (r: Option<TuningNote>)
    ensures details.None? ==> r.None?
    ensures r.Some? ==> exists k :: 0 <= k < |StandardTuningNotes| && StandardTuningNotes[k] == r.value
    ensures r.Some? ==> r.value.name == FullNoteName(details.value)
    ensures details.Some? && r.None? ==>
      forall k :: 0 <= k < |StandardTuningNotes| ==> StandardTuningNotes[k].name != FullNoteName(details.value)
  {
    if details.None? then None
    else
      var k := FirstNamed(StandardTuningNotes, FullNoteName(details.value));
      if k < |StandardTuningNotes| then Some(StandardTuningNotes[k]) else None
  }

  /**
   * Each open string is the target of a reading with its note name and
   * octave, whatever the detune and frequency.
   */
  lemma StandardStringsAreTargets(k: nat, detune: real, frequency: real)
    requires k < 6
    ensures
      var name := StandardTuningNotes[k].name;
      var octave := (name[|name| - 1] as int) - ('0' as int);
      TuningTarget(Some(NoteDetails(Some(name[..|name| - 1]), detune, octave, frequency)))
        == Some(StandardTuningNotes[k])
  {
    StandardTuningTable();
    var name := StandardTuningNotes[k].name;
    var octave := (name[|name| - 1] as int) - ('0' as int);
    assert 0 <= octave < 10;
    assert Digit(octave) == name[|name| - 1];
    assert IntString(octave) == [name[|name| - 1]];
    var details := NoteDetails(Some(name[..|name| - 1]), detune, octave, frequency);
    assert FullNoteName(details) == name;
    var j := FirstNamed(StandardTuningNotes, name);
    assert j <= k;
  }

  /** A reading without a note name (printed "undefined") targets no string. */
  lemma UndefinedNameTargetsNothing(details: NoteDetails)
    requires details.noteName.None?
    ensures TuningTarget(Some(details)).None?
  {
    TuningNamesShort();
    LongNameMatchesNothing(StandardTuningNotes, FullNoteName(details));
  }

  /** Every standard tuning name has two characters. */
  lemma TuningNamesShort()
    ensures forall k :: 0 <= k < |StandardTuningNotes| ==> |StandardTuningNotes[k].name| == 2
  {
  }

  /**
   * A reading whose octave is not a single digit (10 and up, or negative, as
   * in "C-1") targets no string: its name is longer than every table name.
   */
  lemma OctaveOutsideDigitsTargetsNothing(details: NoteDetails)
    requires details.noteName.Some? && details.noteName.value != []
    requires !(0 <= details.octave < 10)
    ensures TuningTarget(Some(details)).None?
  {
    IntStringLong(details.octave);
    TuningNamesShort();
    LongNameMatchesNothing(StandardTuningNotes, FullNoteName(details));
  }

  /** A name longer than every table name is found nowhere. */
  lemma {:induction false} LongNameMatchesNothing(notes: seq<TuningNote>, name: string)
    requires forall k :: 0 <= k < |notes| ==> |notes[k].name| < |name|
    ensures FirstNamed(notes, name) == |notes|
  {
    if notes != [] {
      assert notes[0].name != name;
      LongNameMatchesNothing(notes[1..], name);
    }
  }

  // ---------------------------------------------------------------------
  // Needle, in-tune test, bars, label
  // ---------------------------------------------------------------------

  /** `noteDetails?.detune ?? 0`: the detune shown, zero without a reading. */
  function DisplayedDetune(details: Option<NoteDetails>): (d: real)
    ensures details.None? ==> d == 0.0
    ensures details.Some? ==> d == details.value.detune
  {
    if details.Some? then details.value.detune else 0.0
  }

  /** The needle angle in degrees: 1.8 degrees per cent, clamped to a quarter turn either way. */
  function Rotation(detune: real): (r: real)
    ensures -90.0 <= r <= 90.0
    ensures -50.0 <= detune <= 50.0 <==> r == detune * 1.8
    ensures (r > 0.0 <==> detune > 0.0) && (r < 0.0 <==> detune < 0.0)
    ensures detune > 50.0 ==> r == 90.0
    ensures detune < -50.0 ==> r == -90.0
  {
    var angle := detune * 1.8;
    var upper := if 90.0 < angle then 90.0 else angle;
    if -90.0 > upper then -90.0 else upper
  }

  /** `isInTune`: within 5 cents either way. */
  predicate IsInTune(detune: real)
    ensures IsInTune(detune) <==> -5.0 < detune < 5.0
  {
    Abs(detune) < 5.0
  }

  datatype Color = Green | Yellow | Red

  /** `getBarColor`: green within 5 cents, yellow within 15, red beyond. */
  function BarColor(d: real): (c: Color)
    ensures c == Green <==> IsInTune(d)
    ensures c == Yellow <==> 5.0 <= Abs(d) < 15.0
    ensures c == Red <==> 15.0 <= Abs(d)
  {
    if Abs(d) < 5.0 then Green
    else if Abs(d) < 15.0 then Yellow
    else Red
  }

  /** The cents value bar `i` stands for: -50, -45, ..., 50. */
  function BarDetune(i: int): (c: int)
    ensures c % 5 == 0
    ensures 0 <= i <= 20 <==> -50 <= c <= 50
  {
    (i - 10) * 5
  }

  /** Bar `i` lights when the detune is strictly within 2.5 cents of its value. */
  predicate IsBarActive(detune: real, i: int)
    ensures IsBarActive(detune, i) <==> Abs(detune - BarDetune(i) as real) < 2.5
  {
    BarDetune(i) as real - 2.5 < detune < BarDetune(i) as real + 2.5
  }

  datatype BarLook = Unlit | Lit(color: Color)

  /** The row of 21 bars: each lit in its own colour when active, grey otherwise. */
  function Bars(detune: real): (bars: seq<BarLook>)
    ensures |bars| == 21
    ensures forall i :: 0 <= i < 21 ==> (bars[i].Lit? <==> IsBarActive(detune, i))
    ensures forall i :: 0 <= i < 21 && bars[i].Lit? ==> bars[i].color == BarColor(BarDetune(i) as real)
  {
    seq(21, i requires 0 <= i < 21 =>
      if IsBarActive(detune, i) then Lit(BarColor(BarDetune(i) as real)) else Unlit)
  }

  /** The bars run from -50 to 50 cents in steps of 5. */
  lemma BarScale()
    ensures BarDetune(0) == -50 && BarDetune(10) == 0 && BarDetune(20) == 50
    ensures forall i :: 0 <= i < 20 ==> BarDetune(i + 1) == BarDetune(i) + 5
  {
  }

  /** At most one bar is lit for any detune. */
  lemma AtMostOneBarLit(detune: real, i: nat, j: nat)
    requires i < 21 && j < 21
    requires Bars(detune)[i].Lit? && Bars(detune)[j].Lit?
    ensures i == j
  {
  }

  /** The bar nearest to `detune`. */
  function NearestBar(detune: real): int {
    ((detune + 52.5) / 5.0).Floor
  }

  /** `detune` lies exactly halfway between two bar values, at 5k + 2.5 cents for an integer k. */
  predicate OnBarBoundary(detune: real) {
    (detune + 52.5) / 5.0 == NearestBar(detune) as real
  }

  /** A detune exactly halfway between two bar values lights no bar. */
  lemma BoundaryLightsNoBar(detune: real, i: nat)
    requires OnBarBoundary(detune) && i < 21
    ensures Bars(detune)[i] == Unlit
  {
    var k := NearestBar(detune) - 11;
    assert detune == 5.0 * k as real + 2.5;
    if i - 10 <= k {
      assert BarDetune(i) as real + 2.5 <= detune;
    } else {
      assert k + 1 <= i - 10;
      assert detune <= BarDetune(i) as real - 2.5;
    }
  }

  /**
   * Within the bar range and off the halfway points, exactly one bar is lit:
   * the nearest one.
   */
  lemma NearestBarLit(detune: real)
    requires -52.5 < detune < 52.5 && !OnBarBoundary(detune)
    ensures 0 <= NearestBar(detune) < 21 && Bars(detune)[NearestBar(detune)].Lit?
  {
    var i := NearestBar(detune);
    var x := (detune + 52.5) / 5.0;
    assert i as real < x < i as real + 1.0;
    assert detune == 5.0 * x - 52.5;
  }

  datatype Label = InTune | Sharp | Flat

  /** The caption: "In Tune" when in tune, otherwise "Sharp" above pitch and "Flat" at or below. */
  function TuningLabel(detune: real): (l: Label)
    ensures l == InTune <==> IsInTune(detune)
    ensures l == Sharp <==> !IsInTune(detune) && detune > 0.0
    ensures l == Flat <==> !IsInTune(detune) && detune <= 0.0
  {
    if IsInTune(detune) then InTune else if detune > 0.0 then Sharp else Flat
  }

  /**
   * The caption agrees with the needle and the bars: in tune exactly when the
   * needle is within 9 degrees of centre and the bar colour for the detune is
   * green; sharp puts the needle at least 9 degrees right, flat at least 9
   * degrees left.
   */
  lemma LabelAgreesWithNeedle(detune: real)
    ensures TuningLabel(detune) == InTune <==> -9.0 < Rotation(detune) < 9.0
    ensures TuningLabel(detune) == InTune <==> BarColor(detune) == Green
    ensures TuningLabel(detune) == Sharp ==> Rotation(detune) >= 9.0
    ensures TuningLabel(detune) == Flat ==> Rotation(detune) <= -9.0
  {
    if -50.0 <= detune <= 50.0 {
      assert Rotation(detune) == detune * 1.8;
    }
  }

  /**
   * Without a reading the screen shows a centred needle, the middle bar lit
   * green and the caption "In Tune".
   */
  lemma NoReadingLooksInTune()
    ensures Rotation(DisplayedDetune(None)) == 0.0
    ensures TuningLabel(DisplayedDetune(None)) == InTune
    ensures Bars(DisplayedDetune(None))[10] == Lit(Green)
  {
  }

  /**
   * A published reading is never clamped: its detune is within [-50, 50), so
   * the angle is exactly 1.8 degrees per cent and lies in [-90, 90). It
   * touches the left stop only at exactly -50 cents.
   */
  lemma ReadingNeverClampsNeedle(frequency: real, noteNum: real)
    requires frequency != 0.0
    ensures
      var d := DisplayedDetune(PitchDetection.NoteDetailsOf(frequency, noteNum));
      Rotation(d) == d * 1.8 && -90.0 <= Rotation(d) < 90.0
  {
  }

  /**
   * `Math.round` sends halves up, so a note number halfway between two notes
   * is published at -50 cents and the needle rests on its left stop.
   */
  lemma HalfwayReadingTouchesLeftStop()
    ensures PitchDetection.NoteDetailsOf(1.0, 56.5).Some?
    ensures DisplayedDetune(PitchDetection.NoteDetailsOf(1.0, 56.5)) == -50.0
    ensures Rotation(DisplayedDetune(PitchDetection.NoteDetailsOf(1.0, 56.5))) == -90.0
  {
  }

  // ---------------------------------------------------------------------
  // The open-string list
  // ---------------------------------------------------------------------

  /** `slice().reverse()`. */
  function Reverse<T>(s: seq<T>): (r: seq<T>)
    ensures |r| == |s|
    ensures forall k :: 0 <= k < |s| ==> r[k] == s[|s| - 1 - k]
  {
    if s == [] then [] else Reverse(s[1..]) + [s[0]]
  }

  /** `slice(0, -1)`: everything but the last character. */
  function DropLast(s: string): (r: string)
    ensures s == [] ==> r == []
    ensures s != [] ==> r + [s[|s| - 1]] == s
  {
    if s == [] then [] else s[..|s| - 1]
  }

  /** A two-character tuning name loses its octave digit and keeps its letter. */
  lemma DropOctave(name: string)
    requires |name| == 2
    ensures DropLast(name) == [name[0]]
  {
  }

  /** One card of the open-string list: the note without its octave, the string number, and the highlight. */
  datatype StringCard = StringCard(noteText: string, stringNumber: int, highlighted: bool)

  /**
   * The open-string list: the table in reverse (string 1 first), each card
   * labelled by its name minus the octave digit, highlighted when it is the
   * target.
   */
  function StringCards(target: Option<TuningNote>): (cards: seq<StringCard>)
    ensures |cards| == |StandardTuningNotes|
    ensures forall k :: 0 <= k < |cards| ==>
      var note := StandardTuningNotes[|cards| - 1 - k];
      && cards[k].stringNumber == note.stringNumber
      && cards[k].noteText == DropLast(note.name)
      && (cards[k].highlighted <==> target.Some? && target.value.name == note.name)
  {
    var reversed := Reverse(StandardTuningNotes);
    seq(|reversed|, k requires 0 <= k < |reversed| =>
      StringCard(DropLast(reversed[k].name), reversed[k].stringNumber,
                 target.Some? && target.value.name == reversed[k].name))
  }

  /** The list reads E B G D A E for strings 1 to 6. */
  lemma StringCardsLayout(target: Option<TuningNote>)
    ensures
      var cards := StringCards(target);
      && (forall k :: 0 <= k < 6 ==> cards[k].stringNumber == k + 1)
      && [cards[0].noteText, cards[1].noteText, cards[2].noteText, cards[3].noteText, cards[4].noteText, cards[5].noteText]
         == ["E", "B", "G", "D", "A", "E"]
  {
    CardsLayout(StringCards(target));
  }

  /** Cards that follow the table from its last row read E B G D A E for strings 1 to 6. */
  lemma CardsLayout(cards: seq<StringCard>)
    requires |cards| == 6
    requires forall k :: 0 <= k < |cards| ==>
      var note := StandardTuningNotes[|cards| - 1 - k];
      && cards[k].stringNumber == note.stringNumber
      && cards[k].noteText == DropLast(note.name)
    ensures forall k :: 0 <= k < 6 ==> cards[k].stringNumber == k + 1
    ensures [cards[0].noteText, cards[1].noteText, cards[2].noteText, cards[3].noteText, cards[4].noteText, cards[5].noteText]
         == ["E", "B", "G", "D", "A", "E"]
  {
    DropOctave("E4");
    DropOctave("B3");
    DropOctave("G3");
    DropOctave("D3");
    DropOctave("A2");
    DropOctave("E2");
  }

  /** At most one card is highlighted, because the six names differ. */
  lemma AtMostOneCardHighlighted(target: Option<TuningNote>, j: nat, k: nat)
    requires j < k < 6
    requires StringCards(target)[j].highlighted
    ensures !StringCards(target)[k].highlighted
  {
    StandardTuningTable();
  }
}

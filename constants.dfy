/** The fixed tables: the twelve semitone names and the six strings of standard tuning. */
module Constants {

  /** One open string: its number (6 is the lowest), its note and octave, its pitch in Hz. */
  datatype TuningNote = TuningNote(stringNumber: int, name: string, frequency: real)

  const NoteStrings: seq<string> := ["C", "C#", "D", "D#", "E", "F", "F#", "G", "G#", "A", "A#", "B"]

  const StandardTuningNotes: seq<TuningNote> := [
    TuningNote(6, "E2", 82.41),
    TuningNote(5, "A2", 110.00),
    TuningNote(4, "D3", 146.83),
    TuningNote(3, "G3", 196.00),
    TuningNote(2, "B3", 246.94),
    TuningNote(1, "E4", 329.63)
  ]

  /** Twelve distinct names, C first and A tenth, none containing a digit. */
  lemma NoteStringsTable()
    ensures |NoteStrings| == 12
    ensures NoteStrings[0] == "C" && NoteStrings[9] == "A"
    ensures forall i, j :: 0 <= i < j < 12 ==> NoteStrings[i] != NoteStrings[j]
    ensures forall i, k :: 0 <= i < 12 && 0 <= k < |NoteStrings[i]| ==> !('0' <= NoteStrings[i][k] <= '9')
  {
  }

  /**
   * Six strings numbered 6 down to 1, rising in pitch, each named by a
   * semitone name followed by a single octave digit, no two names alike.
   */
  lemma StandardTuningTable()
    ensures |StandardTuningNotes| == 6
    ensures forall k :: 0 <= k < 6 ==> StandardTuningNotes[k].stringNumber == 6 - k
    ensures forall j, k :: 0 <= j < k < 6 ==> StandardTuningNotes[j].frequency < StandardTuningNotes[k].frequency
    ensures forall k :: 0 <= k < 6 ==>
      var name := StandardTuningNotes[k].name;
      |name| >= 2 && name[..|name| - 1] in NoteStrings && '0' <= name[|name| - 1] <= '9'
    ensures forall j, k :: 0 <= j < k < 6 ==> StandardTuningNotes[j].name != StandardTuningNotes[k].name
  {
    assert "E2"[..1] == NoteStrings[4];
    assert "A2"[..1] == NoteStrings[9];
    assert "D3"[..1] == NoteStrings[2];
    assert "G3"[..1] == NoteStrings[7];
    assert "B3"[..1] == NoteStrings[11];
    assert "E4"[..1] == NoteStrings[4];
  }
}

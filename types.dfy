/** The value types shared by the tuner and the tutorial form. */
module Types {
  import opened Wrappers

  /**
   * One published pitch reading. `noteName` is `None` where the source's
   * table lookup yields `undefined` (a negative note index that is not a
   * multiple of 12); `detune` is in cents, `frequency` in Hz.
   */
  datatype NoteDetails = NoteDetails(noteName: Option<string>, detune: real, octave: int, frequency: real)

  datatype Difficulty = Easy | Medium | Hard

  datatype Style = Chords | Fingerpicking

  datatype FingerpickingFocus = Melody | ChordMelody
}

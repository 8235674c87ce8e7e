# Guitar-Guru tuner and tutorial helpers, modelled in Dafny

Guitar-Guru is a browser application with two halves. One is a guitar tuner that
listens to the microphone. The other turns a song request into a tutorial with chord
diagrams and tablature. This project models the parts of it that decide things:

- **The tuner engine** (`usePitchDetection`). It searches one audio frame for its period
  by autocorrelation. It turns the resulting pitch into a note name, an octave and a
  detune in cents. It also runs the `start` / `stop` / frame-tick life cycle of the
  microphone, the audio graph and the published reading (`PitchDetection`).
- **The tuner screen** (`Tuner`). This covers the open string a reading targets, the
  needle angle, the in-tune test, the 21 detune bars and their colours, the
  In Tune/Sharp/Flat caption, and the open-string list.
- **The fixed tables** (`Constants`): the twelve note names and standard tuning.
- **The chord-diagram text parser** (`ChordDiagram`). It reads `Name: x02210` lines,
  then derives each diagram's starting fret and per-string markers.
- **The tablature line parser** (`Tablature`). It keeps the lines that contain a bar
  and cuts each at its first bar.
- **The tutorial request form** (`TutorialForm`). It holds the form state, decides
  which option groups are shown and when submitting is disabled, and fixes which
  arguments a request carries.

Two modules support these. `JsString` models the JavaScript string built-ins the
components use: `trim`, one-character `split`, `join`, and integers in template
literals. `Wrappers` holds the option type.

The model follows the code's form:
- Pure expressions in the components are functions with lemmas.
- The nested autocorrelation loops are a method over an `array<real>`, proved against
  a specification predicate (`IsPeakLag`).
- The hook's refs and state are fields of a class. `Start`, `Stop` and `Tick` change
  them.
- The form's state is a class with one setter per input handler.

Browser objects are opaque values supplied by the caller. These are the microphone
stream, the audio context, the source and analyser nodes, and animation-frame ids.
`Start` receives an `Acquisition` value. It says which acquisition step, if any,
throws. `Math.log` is not modelled: the continuous note number `12 * log2(f / C0)` is
an input to `NoteDetailsOf` and a function parameter of `Tick`. Numbers are
mathematical reals, not IEEE doubles.

Two behaviours of the code differ from what a reader might expect. The model follows
the code in both:

- **Detune range.** The detune is `(noteNum - Math.round(noteNum)) * 100`.
  `Math.round` sends halves up, so the detune lies in [-50, 50), not (-50, 50].
  `NoteDetailsOf` states this range.
- **Note name for a negative index.** `NOTE_STRINGS[noteIndex % 12]` uses JavaScript's
  truncating remainder, not a non-negative modulus. A negative note index that is not
  a multiple of 12 (a pitch below C0) therefore has an undefined name, which prints as
  `undefined`. `NoteDetailsOf` and `NegativeNoteIndex` state this. Index -12 gives -0,
  which reads "C".

One behaviour of the code is modelled as written, because it is visible in the
contract of `PitchDetection.PitchDetector.Start`. When an acquisition step throws
part-way, the handles stored before it stay stored while `isListening` is false.
`stop` is then a no-op, so those handles are not released.

## Model

| member | source | states |
|---|---|---|
| JsString.TrimStart | components/Tablature.tsx:14 | the result is a suffix of the input; every dropped character is whitespace; the result does not begin with whitespace |
| JsString.TrimEnd | components/Tablature.tsx:14 | the result is a prefix of the input; every dropped character is whitespace; the result does not end with whitespace |
| JsString.Trim | components/Tablature.tsx:14-16 | the result is the infix of the input left after removing whitespace from both ends: everything before and after it is whitespace, and it has no whitespace at either end |
| JsString.TrimInfix | components/Tablature.tsx:14 | the trimmed text sits in the input right after its leading whitespace, and everything before and after it is whitespace |
| JsString.LeadingWhitespace | components/Tablature.tsx:14 | everything trimming drops from the start is whitespace |
| JsString.TrailingWhitespace | components/Tablature.tsx:14 | everything trimming drops from the end is whitespace |
| JsString.TrimStartKeeps | components/Tablature.tsx:14 | trimming the start keeps exactly the non-whitespace characters present |
| JsString.TrimEndKeeps | components/Tablature.tsx:14 | trimming the end keeps exactly the non-whitespace characters present |
| JsString.TrimKeeps | components/Tablature.tsx:16-17 | a non-whitespace character (such as a bar) is in the trimmed string iff it is in the original |
| JsString.TrimEmpty | components/TutorialForm.tsx:19 | a string trims to empty iff every character is whitespace |
| JsString.TrimmedIsFixed | components/ChordDiagram.tsx:86 | trimming a trimmed string changes nothing |
| JsString.TrimIdempotent | components/Tablature.tsx:14-16 | trimming twice is trimming once |
| JsString.Split | components/Tablature.tsx:15 | splitting yields at least one piece, and no piece contains the separator |
| JsString.Join | components/Tablature.tsx:34 | joining no pieces gives the empty string; one piece gives itself; otherwise the result begins with the first piece followed by the separator |
| JsString.JoinSplit | components/Tablature.tsx:34 | joining the pieces of a split with the same separator gives back the string |
| JsString.SplitJoin | components/Tablature.tsx:32-34 | splitting a join of separator-free pieces gives back the pieces |
| JsString.SplitNoSeparator | components/ChordDiagram.tsx:84 | a string without the separator splits into itself alone |
| JsString.SplitConcat | components/ChordDiagram.tsx:84 | splitting `a + sep + b` is splitting `a` followed by splitting `b` |
| JsString.SplitCount | components/ChordDiagram.tsx:84 | the separator occurs iff the split has at least two pieces |
| JsString.SplitKeeps | components/Tablature.tsx:15-17 | a non-separator character occurs in the string iff it occurs in some piece |
| JsString.IndexOf | components/Tablature.tsx:32 | the index of the first occurrence of the character |
| JsString.SplitHead | components/Tablature.tsx:32-34 | the first piece is the text before the first separator; the other pieces joined are the text after it |
| JsString.SplitAtFirst | components/ChordDiagram.tsx:84 | a split is the text before the first separator, then the split of the text after it |
| JsString.Digit | components/Tuner.tsx:10 | the decimal digit character for 0..9 |
| JsString.NatString | components/Tuner.tsx:10 | a non-empty string of digits without a leading zero |
| JsString.IntString | components/Tuner.tsx:10 | non-empty; begins with '-' iff the number is negative; the digits that follow denote the number's magnitude, without leading zeros; one digit for 0..9 |
| JsString.IntStringLong | components/Tuner.tsx:10 | a number outside 0..9 is rendered with at least two characters |
| JsString.NatStringRoundTrip | components/Tuner.tsx:10 | reading back the decimal rendering gives the number |
| Constants.NoteStringsTable | constants.ts:11 | twelve distinct names, "C" at 0 and "A" at 9, none containing a digit |
| Constants.StandardTuningTable | constants.ts:2-9 | six strings numbered 6 down to 1; frequencies strictly increase; each name is a note name followed by one octave digit; the names are distinct |
| PitchDetection.Round | hooks/usePitchDetection.ts:13 | `Math.round`: the result lies in (x - 0.5, x + 0.5] |
| PitchDetection.JsRemainder12 | hooks/usePitchDetection.ts:17 | the truncating remainder: within (-12, 12), congruent to the input, and signed like it |
| PitchDetection.NoteNameAt | hooks/usePitchDetection.ts:17 | the table entry for an index in 0..11, undefined otherwise |
| PitchDetection.NoteIndexParts | hooks/usePitchDetection.ts:16-17 | the floored octave brackets the note index; the truncating `% 12` names the note `index - 12 * octave` when the index is non-negative or a multiple of 12, and names nothing otherwise |
| PitchDetection.NoteDetailsOf | hooks/usePitchDetection.ts:9-20 | no reading iff frequency is 0; frequency kept; detune in [-50, 50); note number = nearest index + detune/100; octave is the floor of index/12; whenever a name exists it is the table entry at index - 12 * octave; for a non-negative index the name always exists; for a negative index a name exists iff the index is a multiple of 12 |
| PitchDetection.ConcertA | hooks/usePitchDetection.ts:9-20 | note number 57 at 440 Hz is A4, exactly in tune |
| PitchDetection.NegativeNoteIndex | hooks/usePitchDetection.ts:16-17 | index -1 has no name; index -12 reads "C" |
| PitchDetection.PeakLagUnique | hooks/usePitchDetection.ts:42-55 | the result of the lag search is determined by the frame |
| PitchDetection.AutocorrelationPeak | hooks/usePitchDetection.ts:42-55 | the search result is -1 iff no lag in [40, N/2) has positive correlation; otherwise it is the lag in that window with the greatest correlation, and the smallest such lag; every buffer index read is in bounds |
| PitchDetection.FrequencyOfLag | hooks/usePitchDetection.ts:57 | 0 for lag -1; otherwise the frequency whose period is the lag (f * lag = sampleRate), positive for a positive rate |
| PitchDetection.FrequencyRange | hooks/usePitchDetection.ts:46-57 | a detected pitch lies in [sampleRate / (N/2 - 1), sampleRate / 40] |
| PitchDetection.ZeroPartialCorrelation | hooks/usePitchDetection.ts:47-50 | every correlation sum over a silent frame is 0 |
| PitchDetection.SilentFrameHasNoPitch | hooks/usePitchDetection.ts:42-57 | a silent frame yields lag -1, so no pitch is published |
| PitchDetection.Acquisition.StepsDone | hooks/usePitchDetection.ts:67-81 | how many handles `start` stores before it finishes or throws; 4 iff every handle was obtained |
| PitchDetection.PitchDetector.constructor | hooks/usePitchDetection.ts:24-32 | the initial state: not listening, no reading, no error, no handles, no frame scheduled |
| PitchDetection.PitchDetector.SampleRate | hooks/usePitchDetection.ts:44 | the audio context's sample rate, or 44100 when no context is held |
| PitchDetection.PitchDetector.Fail | hooks/usePitchDetection.ts:86-90 | the catch branch: shows the fixed denial message and stops listening |
| PitchDetection.PitchDetector.Start | hooks/usePitchDetection.ts:63-91 | a no-op while listening; otherwise stores each handle obtained before a failing step; listening iff every step succeeds; on success the error is cleared and the first frame is scheduled; on failure the denial message is shown and the frame id is untouched; the state invariant is kept |
| PitchDetection.PitchDetector.Stop | hooks/usePitchDetection.ts:93-113 | a no-op unless listening; otherwise clears the frame id, every handle and the reading, stops listening, and keeps the error |
| PitchDetection.PitchDetector.Tick | hooks/usePitchDetection.ts:34-61 | without an analyser nothing changes; otherwise publishes the reading for the peak lag of the frame and schedules the next frame, changing nothing else; with a positive sample rate, no reading is published iff no lag was found |
| PitchDetection.StopThenStaleTick | hooks/usePitchDetection.ts:35-112 | after `stop`, a frame callback that still fires publishes nothing and the detector stays idle |
| Tuner.FirstNamed | components/Tuner.tsx:11 | `find`: the first index whose entry has the name, or the length when there is none |
| Tuner.FullNoteName | components/Tuner.tsx:10 | a defined name followed by a one-digit octave; an undefined name prints as "undefined" before the octave |
| Tuner.TuningTarget | components/Tuner.tsx:7-12 | none without a reading; otherwise a table entry named by the note name and octave, or none when no entry has that name |
| Tuner.StandardStringsAreTargets | components/Tuner.tsx:7-12 | a reading with an open string's note and octave targets that string, whatever its detune |
| Tuner.UndefinedNameTargetsNothing | components/Tuner.tsx:10-11 | a reading whose name is undefined targets no string |
| Tuner.OctaveOutsideDigitsTargetsNothing | components/Tuner.tsx:10-11 | a reading whose octave is 10 or more, or negative (as in "C-1"), targets no string |
| Tuner.LongNameMatchesNothing | components/Tuner.tsx:11 | `find` finds no entry for a name longer than every entry's name |
| Tuner.TuningNamesShort | constants.ts:2-9 | every standard tuning name has two characters |
| Tuner.DisplayedDetune | components/Tuner.tsx:15 | the reading's detune, or 0 without a reading |
| Tuner.IsInTune | components/Tuner.tsx:17 | in tune iff the detune is strictly between -5 and 5 cents |
| Tuner.Rotation | components/Tuner.tsx:16 | the angle is within [-90, 90]; it is detune * 1.8 iff the detune is within [-50, 50]; it is 90 above 50 cents and -90 below -50 cents; it has the sign of the detune |
| Tuner.BarColor | components/Tuner.tsx:19-23 | green iff within 5 cents, yellow iff 5 to under 15, red from 15 |
| Tuner.BarDetune | components/Tuner.tsx:55 | a multiple of 5, within [-50, 50] iff the bar index is 0..20 |
| Tuner.IsBarActive | components/Tuner.tsx:56 | a bar is active iff the detune is strictly within 2.5 cents of its value |
| Tuner.Bars | components/Tuner.tsx:54-63 | 21 bars; bar i is lit iff the detune is strictly within 2.5 cents of its value, and then in the colour for that value |
| Tuner.BarScale | components/Tuner.tsx:55 | bar values run -50, -45, ..., 50 |
| Tuner.AtMostOneBarLit | components/Tuner.tsx:56 | no two bars are lit at once |
| Tuner.BoundaryLightsNoBar | components/Tuner.tsx:56 | a detune exactly halfway between two bar values lights no bar |
| Tuner.NearestBarLit | components/Tuner.tsx:54-56 | within the bar range and off the halfway points, the nearest bar is lit |
| Tuner.TuningLabel | components/Tuner.tsx:67 | "In Tune" iff in tune; otherwise "Sharp" iff the detune is positive, else "Flat" |
| Tuner.LabelAgreesWithNeedle | components/Tuner.tsx:16-67 | the caption says in tune iff the needle is within 9 degrees of centre iff the colour is green; sharp puts the needle at least 9 degrees right, flat at least 9 degrees left |
| Tuner.NoReadingLooksInTune | components/Tuner.tsx:15-67 | without a reading the needle is centred, the middle bar is lit green and the caption says in tune |
| Tuner.ReadingNeverClampsNeedle | components/Tuner.tsx:16 | a published reading is never clamped: the angle is exactly 1.8 degrees per cent and lies in [-90, 90), touching the left stop only at exactly -50 cents |
| Tuner.HalfwayReadingTouchesLeftStop | components/Tuner.tsx:16 | a note number halfway between notes (56.5) is rounded up, published at -50 cents, and puts the needle on its left stop at -90 degrees |
| Tuner.Reverse | components/Tuner.tsx:103 | the same elements in the opposite order |
| Tuner.DropLast | components/Tuner.tsx:110 | `slice(0, -1)`: the string without its last character, which appended back gives the string |
| Tuner.DropOctave | components/Tuner.tsx:110 | a two-character name loses its octave digit and keeps its letter |
| Tuner.StringCards | components/Tuner.tsx:103-110 | one card per string in reverse table order, labelled by the name without its octave digit, highlighted iff it is the target |
| Tuner.StringCardsLayout | components/Tuner.tsx:103-111 | the list reads E B G D A E for strings 1 to 6 |
| Tuner.CardsLayout | components/Tuner.tsx:103-111 | cards that follow the table from its last row are numbered 1 to 6 and read E B G D A E |
| Tuner.AtMostOneCardHighlighted | components/Tuner.tsx:107 | at most one card is highlighted |
| ChordDiagram.FieldsOfSplit | components/ChordDiagram.tsx:84 | the first two pieces of the split are the text before the first colon and the text between the first and second colons |
| ChordDiagram.ParseLine | components/ChordDiagram.tsx:84-88 | a line is accepted iff it has a colon, a non-empty untrimmed name field, and a fret field that trims to 6 characters; the entry holds both fields trimmed |
| ChordDiagram.ParseFields | components/ChordDiagram.tsx:84-85 | accepted iff there are two pieces, the first non-empty and the second trimming to 6 characters; the entry has the trimmed first piece as name and the trimmed second piece, 6 characters long, as frets |
| ChordDiagram.SecondColonIgnored | components/ChordDiagram.tsx:84 | text after a second colon does not change the outcome |
| ChordDiagram.BlankNameAccepted | components/ChordDiagram.tsx:84-86 | a line whose name is non-empty but all whitespace, followed by six trimmed fret characters, is accepted: the test looks at the untrimmed name, and the entry keeps the empty name |
| ChordDiagram.ParseLines | components/ChordDiagram.tsx:80-90 | at most one entry per line; every entry has 6 trimmed fret characters and a trimmed name |
| ChordDiagram.ParseLinesAppend | components/ChordDiagram.tsx:80-90 | entries keep the order of their lines |
| ChordDiagram.ParsedFromSomeLine | components/ChordDiagram.tsx:83-90 | every entry is contributed by some input line |
| ChordDiagram.ParseDiagrams | components/ChordDiagram.tsx:75-94 | nothing iff the text is empty or no line of the trimmed text is accepted; otherwise exactly the accepted lines' entries, in line order, each with 6 fret characters |
| ChordDiagram.ParseDigit | components/ChordDiagram.tsx:48 | a value iff the character is a decimal digit, and then that digit's value |
| ChordDiagram.RelevantFrets | components/ChordDiagram.tsx:12-14 | exactly the values of the fretted characters: empty iff none is fretted |
| ChordDiagram.MinOf | components/ChordDiagram.tsx:15 | a member of the list no greater than any member |
| ChordDiagram.MinFret | components/ChordDiagram.tsx:15 | the lowest fretted value, or 1 when nothing is fretted |
| ChordDiagram.StartFret | components/ChordDiagram.tsx:18 | at least 1 and no greater than any fretted value; above 1 iff the lowest fret is above 3, and then one below it |
| ChordDiagram.MarkerOf | components/ChordDiagram.tsx:47-67 | a dot at the fret iff fretted; "x" iff x or X; "o" iff 0; nothing otherwise |
| ChordDiagram.Diagram | components/ChordDiagram.tsx:7-67 | the chord's name; the start fret is `StartFret` of the fret characters, labelled iff it is above 1; one marker per fret character, each from `MarkerOf`; no dot sits above the start fret |
| ChordDiagram.SixMarkersPerDiagram | components/ChordDiagram.tsx:47-85 | every diagram drawn from the text has six markers |
| Tablature.KeepBarLines | components/Tablature.tsx:16-17 | every kept line contains a bar and has no whitespace at either end |
| Tablature.KeepBarLinesAppend | components/Tablature.tsx:13-17 | kept lines keep their original order |
| Tablature.KeepBarLinesEmpty | components/Tablature.tsx:16-17 | nothing is kept iff no line contains a bar |
| Tablature.KeptLineEmpty | components/Tablature.tsx:16-17 | a line is dropped iff it has no bar, since trimming never removes one |
| Tablature.BarFreeCons | components/Tablature.tsx:17 | no line has a bar iff the first has none and none of the rest has |
| Tablature.TabLines | components/Tablature.tsx:13-17 | at most one kept line per line of the trimmed text; every kept line contains a bar and is trimmed |
| Tablature.LinesHoldBar | components/Tablature.tsx:15-17 | splitting into lines neither adds nor loses a bar |
| Tablature.TabLinesEmpty | components/Tablature.tsx:13-20 | no line is kept iff the text has no bar |
| Tablature.SplitTabLine | components/Tablature.tsx:32-34 | the string name contains no bar and is trimmed |
| Tablature.SplitTabLineAtFirstBar | components/Tablature.tsx:32-34 | the name is the trimmed text before the first bar, the content is everything after it, and the text before the bar plus "|" plus the content is the line |
| Tablature.SplitTabLineWithoutBar | components/Tablature.tsx:32-34 | a line without a bar is all name and no content |
| Tablature.Render | components/Tablature.tsx:7-45 | nothing iff the text is empty; the raw text, unchanged, iff no line is kept; otherwise one row per kept line, split at its first bar |
| Tablature.FallbackIffNoBar | components/Tablature.tsx:13-26 | for non-empty text, the raw-text fallback is shown iff the text contains no bar |
| TutorialForm.Form.constructor | components/TutorialForm.tsx:11-15 | empty song and artist, Easy, Chords, melody-only focus |
| TutorialForm.Form.SetSong | components/TutorialForm.tsx:44 | sets the song only |
| TutorialForm.Form.SetArtist | components/TutorialForm.tsx:58 | sets the artist only |
| TutorialForm.Form.SetDifficulty | components/TutorialForm.tsx:72 | sets the difficulty only, so the earlier style and focus survive a visit to Hard |
| TutorialForm.Form.SetStyle | components/TutorialForm.tsx:92 | sets the style only |
| TutorialForm.Form.SetFingerpickingFocus | components/TutorialForm.tsx:114 | sets the focus only |
| TutorialForm.Form.ShowStyleOptions | components/TutorialForm.tsx:29 | style options are shown iff the difficulty is not Hard |
| TutorialForm.Form.ShowFocusOptions | components/TutorialForm.tsx:30 | focus options are shown only with style options, and iff below Hard with fingerpicking |
| TutorialForm.Form.SubmitDisabled | components/TutorialForm.tsx:129 | disabled iff loading or the song is all whitespace |
| TutorialForm.Form.HandleSubmit | components/TutorialForm.tsx:17-27 | a request goes out iff the button is enabled, that is, not loading and the song has a non-whitespace character; song and artist are passed untrimmed; style is passed iff style options are shown; focus is passed iff focus options are shown |

## Left out

- `Math.log` and `Math.pow`: the note number `12 * log2(f / C0)` is an input, not computed from the frequency.
- IEEE-754 doubles and `Float32Array` rounding: the correlation sums, the division by the lag and `detune * 1.8` are exact reals.
- Tuning accuracy (for example, that a clean sine is found within a few per cent) is not stated, because it depends on the signal, not on the code's logic.
- Browser side effects: stopping the tracks, disconnecting the nodes, closing the audio context, and cancelling the pending frame. The model drops the handles and the frame id; releasing them is outside it.
- `console.error` in `start`'s catch branch (`hooks/usePitchDetection.ts:87`): the logging is dropped; the error message and not-listening state it accompanies are modelled by `Fail`.
- The asynchronous race between a pending `start` and a `stop`, and React's stale closures of `isListening`: the model runs each handler to completion on the current state.
- The unmount effect of the hook (`hooks/usePitchDetection.ts:115-119`) just calls `stop`, which is modelled. React's re-running of that effect when `stop` changes identity is not.
- The `typeof diagrams !== 'string'` guard: the model's input is always a string.
- `maxFret` is computed but never used; it is not modelled.
- The marker `yOffset` percentages, all JSX markup and CSS classes, the note readout, the error paragraph and the start/stop toggle button.
- String lengths count Unicode scalar values, while JavaScript counts UTF-16 code units. The two differ only for characters outside the Basic Multilingual Plane, which the model does not distinguish.
- `services/geminiService.ts`, `App.tsx`, `components/AudioPlayer.tsx` and `components/TutorialDisplay.tsx` are not part of this model. They are a network client, view orchestration, a wrapper over a foreign audio library, and plain rendering.

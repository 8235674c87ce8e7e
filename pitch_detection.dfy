/**
 * The tuner engine of `usePitchDetection`: mapping a continuous note number
 * to a note name, octave and cents, the autocorrelation search for the
 * period of one audio frame, and the start/stop/tick life cycle of the hook's
 * state and browser handles.
 *
 * Browser objects (the microphone stream, the audio context, the source and
 * analyser nodes, animation-frame ids) are opaque handles supplied by the
 * caller; `Math.log` is not modelled, so the continuous note number
 * `12 * log2(frequency / C0)` is an input.
 */
module PitchDetection {
  import opened Wrappers
  import opened Types
  import Constants

  /** Smallest lag the scan tries; it caps the detectable pitch at sampleRate / 40. */
  const MinLag: nat := 40

  /** The analyser's frame size, fixed when listening starts. */
  const FftSize: nat := 2048

  /** The sample rate used when no audio context is held. */
  const DefaultSampleRate: real := 44100.0

  /** The error shown after any failure while acquiring the microphone. */
  const MicrophoneDeniedMessage: string :=
    "Microphone access denied. Please allow microphone access in your browser settings."

  // ---------------------------------------------------------------------
  // Note mapping (getNoteDetails)
  // ---------------------------------------------------------------------

  /** `Math.round`: the nearest integer, halves going up. */
  function Round(x: real): (k: int)
    ensures x - 0.5 < k as real <= x + 0.5
  {
    (x + 0.5).Floor
  }

  /** JavaScript's `a % 12`: truncating, so the result takes the sign of `a`. */
  function JsRemainder12(a: int): (r: int)
    ensures -12 < r < 12
    ensures (a - r) % 12 == 0
    ensures a >= 0 ==> r >= 0
    ensures a <= 0 ==> r <= 0
  {
    if a >= 0 then a % 12 else -((-a) % 12)
  }

  /** Reading `NOTE_STRINGS[i]`: `undefined` (here `None`) outside the table. */
  function NoteNameAt(i: int): (r: Option<string>)
    ensures r.Some? <==> 0 <= i < 12
    ensures r.Some? ==> r.value == Constants.NoteStrings[i]
  {
    if 0 <= i < |Constants.NoteStrings| then Some(Constants.NoteStrings[i]) else None
  }

  /**
   * `getNoteDetails`: no reading for frequency 0; otherwise the nearest note
   * index `Round(noteNum)`, its octave, its table name and the remainder in
   * cents.
   */
  function NoteDetailsOf(frequency: real, noteNum: real): (r: Option<NoteDetails>)
    ensures r.None? <==> frequency == 0.0
    ensures r.Some? ==> r.value.frequency == frequency
    ensures r.Some? ==> -50.0 <= r.value.detune < 50.0
    ensures r.Some? ==> noteNum == Round(noteNum) as real + r.value.detune / 100.0
    ensures r.Some? ==> 12 * r.value.octave <= Round(noteNum) < 12 * r.value.octave + 12
    ensures r.Some? && Round(noteNum) >= 0 ==>
      r.value.noteName == Some(Constants.NoteStrings[Round(noteNum) - 12 * r.value.octave])
    ensures r.Some? && Round(noteNum) < 0 ==>
      (r.value.noteName.Some? <==> Round(noteNum) % 12 == 0)
    ensures r.Some? && r.value.noteName.Some? ==>
      r.value.noteName.value == Constants.NoteStrings[Round(noteNum) - 12 * r.value.octave]
  {
    if frequency == 0.0 then None
    else
      var noteIndex := Round(noteNum);
      var detune := (noteNum - noteIndex as real) * 100.0;
      var octave := noteIndex / 12;
      NoteIndexParts(noteIndex);
      var noteName := NoteNameAt(JsRemainder12(noteIndex));
      Some(NoteDetails(noteName, detune, octave, frequency))
  }

  /**
   * The octave `floor(i / 12)` and the table lookup at `i % 12`: the lookup
   * succeeds for every non-negative index and for negative multiples of 12,
   * and then reads the entry at `i - 12 * octave`.
   */
  lemma NoteIndexParts(i: int)
    ensures 12 * (i / 12) <= i < 12 * (i / 12) + 12
    ensures i >= 0 || i % 12 == 0 ==> NoteNameAt(JsRemainder12(i)) == Some(Constants.NoteStrings[i - 12 * (i / 12)])
    ensures i < 0 && i % 12 != 0 ==> NoteNameAt(JsRemainder12(i)).None?
  {
    var r := JsRemainder12(i);
    if i >= 0 {
      assert r == i - 12 * (i / 12);
    } else if i % 12 == 0 {
      assert r == 0 && i - 12 * (i / 12) == 0;
    } else {
      assert r < 0;
    }
  }

  /** Concert A: note number 57 is A in octave 4, exactly in tune. */
  lemma ConcertA()
    ensures NoteDetailsOf(440.0, 57.0) == Some(NoteDetails(Some("A"), 0.0, 4, 440.0))
  {
    assert Round(57.0) == 57;
  }

  /** Just below C0 (note index -1) the table lookup yields no name; at -12 it wraps to C. */
  lemma NegativeNoteIndex()
    ensures NoteDetailsOf(15.0, -1.0).value.noteName == None
    ensures NoteDetailsOf(8.0, -12.0).value.noteName == Some("C")
  {
    assert Round(-1.0) == -1;
    assert Round(-12.0) == -12;
  }

  // ---------------------------------------------------------------------
  // Pitch estimation (the autocorrelation scan in processAudio)
  // ---------------------------------------------------------------------

  /** The number of indices `i` with `i < n / 2` in real division. */
  function Window(n: nat): nat {
    (n + 1) / 2
  }

  /** `sum of s[i] * s[i + lag]` for `i < k`. */
  function PartialCorrelation(s: seq<real>, lag: nat, k: nat): real
    requires k + lag <= |s|
  {
    if k == 0 then 0.0 else PartialCorrelation(s, lag, k - 1) + s[k - 1] * s[k - 1 + lag]
  }

  /** The correlation of a frame with itself shifted by `lag`, over the first half of the frame. */
  function Correlation(s: seq<real>, lag: nat): real
    requires lag < Window(|s|)
  {
    PartialCorrelation(s, lag, Window(|s|))
  }

  /**
   * What the scan finds: -1 when no lag in `[MinLag, Window)` correlates
   * strictly positively; otherwise the first lag of greatest correlation.
   */
  ghost predicate IsPeakLag(s: seq<real>, lag: int) {
    if lag == -1 then
      forall l: nat :: MinLag <= l < Window(|s|) ==> Correlation(s, l) <= 0.0
    else
      && MinLag <= lag < Window(|s|)
      && Correlation(s, lag) > 0.0
      && (forall l: nat :: MinLag <= l < Window(|s|) ==> Correlation(s, l) <= Correlation(s, lag))
      && (forall l: nat :: MinLag <= l < lag ==> Correlation(s, l) < Correlation(s, lag))
  }

  /** The scan's answer is determined by the frame. */
  lemma PeakLagUnique(s: seq<real>, a: int, b: int)
    requires IsPeakLag(s, a) && IsPeakLag(s, b)
    ensures a == b
  {
    if a != -1 && b != -1 {
      assert Correlation(s, a) <= Correlation(s, b) && Correlation(s, b) <= Correlation(s, a);
    }
  }

  /**
   * The nested loops of `processAudio`: every lag from `MinLag` while
   * `lag < N / 2`, each summing `buffer[i] * buffer[i + lag]` while
   * `i < N / 2`, keeping the lag whose sum beats the best so far strictly.
   * Every index read is in bounds.
   */
  method AutocorrelationPeak(buffer: array<real>) returns (bestLag: int)
    ensures IsPeakLag(buffer[..], bestLag)
  {
    ghost var s := buffer[..];
    var n := buffer.Length;
    var bestCorrelation := 0.0;
    bestLag := -1;
    var lag := MinLag;
    while 2 * lag < n
      invariant MinLag <= lag && (lag <= Window(n) || lag == MinLag)
      invariant bestLag == -1 ==>
        bestCorrelation == 0.0 && forall l: nat :: MinLag <= l < lag ==> Correlation(s, l) <= 0.0
      invariant bestLag != -1 ==>
        && MinLag <= bestLag < lag
        && bestCorrelation == Correlation(s, bestLag) > 0.0
        && (forall l: nat :: MinLag <= l < lag ==> Correlation(s, l) <= bestCorrelation)
        && (forall l: nat :: MinLag <= l < bestLag ==> Correlation(s, l) < bestCorrelation)
    {
      var correlation := 0.0;
      var i := 0;
      while 2 * i < n
        invariant 0 <= i <= Window(n)
        invariant correlation == PartialCorrelation(s, lag, i)
      {
        correlation := correlation + buffer[i] * buffer[i + lag];
        i := i + 1;
      }
      if correlation > bestCorrelation {
        bestCorrelation := correlation;
        bestLag := lag;
      }
      lag := lag + 1;
    }
  }

  /** `bestLag > 0 ? sampleRate / bestLag : 0`: the pitch whose period is the lag. */
  function FrequencyOfLag(sampleRate: real, bestLag: int): (f: real)
    ensures bestLag <= 0 ==> f == 0.0
    ensures bestLag > 0 ==> f * bestLag as real == sampleRate
    ensures bestLag > 0 && sampleRate > 0.0 ==> f > 0.0
  {
    if bestLag > 0 then sampleRate / bestLag as real else 0.0
  }

  /** A detected pitch lies between sampleRate / (Window - 1) and sampleRate / MinLag. */
  lemma FrequencyRange(sampleRate: real, n: nat, lag: int)
    requires sampleRate > 0.0
    requires MinLag <= lag < Window(n)
    ensures sampleRate / (Window(n) - 1) as real <= FrequencyOfLag(sampleRate, lag) <= sampleRate / MinLag as real
  {
    var f := FrequencyOfLag(sampleRate, lag);
    var hi := (Window(n) - 1) as real;
    var l := lag as real;
    assert f * l == sampleRate;
    assert MinLag as real <= l <= hi;
    assert (sampleRate / hi) * hi == sampleRate;
    assert (sampleRate / MinLag as real) * MinLag as real == sampleRate;
    MonotoneQuotient(sampleRate, l, hi);
    MonotoneQuotient(sampleRate, MinLag as real, l);
  }

  /** Dividing a positive number by a larger divisor gives a smaller quotient. */
  lemma MonotoneQuotient(a: real, x: real, y: real)
    requires a > 0.0 && 0.0 < x <= y
    ensures a / y <= a / x
  {
  }

  /** All sums of products of zeros are zero. */
  lemma {:induction false} ZeroPartialCorrelation(s: seq<real>, lag: nat, k: nat)
    requires k + lag <= |s|
    requires forall i :: 0 <= i < |s| ==> s[i] == 0.0
    ensures PartialCorrelation(s, lag, k) == 0.0
  {
    if k > 0 {
      ZeroPartialCorrelation(s, lag, k - 1);
    }
  }

  /** A silent frame has no pitch: the scan reports -1 and never a spurious lag. */
  lemma SilentFrameHasNoPitch(s: seq<real>)
    requires forall i :: 0 <= i < |s| ==> s[i] == 0.0
    ensures IsPeakLag(s, -1)
  {
    forall l: nat | MinLag <= l < Window(|s|) ensures Correlation(s, l) <= 0.0 {
      ZeroPartialCorrelation(s, l, Window(|s|));
    }
  }

  // ---------------------------------------------------------------------
  // The hook's state and its start / stop / tick transitions
  // ---------------------------------------------------------------------

  datatype MediaStream = MediaStream(id: nat)
  datatype AudioContext = AudioContext(id: nat, sampleRate: real)
  datatype SourceNode = SourceNode(id: nat)
  datatype AnalyserNode = AnalyserNode(id: nat, fftSize: nat)

  /** Animation-frame request ids; browsers hand out positive ones, so a held id is always truthy. */
  type FrameId = id: int | id > 0 witness 1

  /**
   * How the browser answers the steps of `start`, in order: the microphone
   * stream, the audio context, the source node, the analyser, and the
   * connection of source to analyser. `None` (or `connected == false`) marks
   * the step that threw; steps after it are never reached.
   */
  datatype Acquisition = Acquisition(
    stream: Option<MediaStream>,
    context: Option<AudioContext>,
    source: Option<SourceNode>,
    analyserId: Option<nat>,
    connected: bool)
  {
    /** How many of the four handles `start` stores before it finishes or throws. */
    function StepsDone(): (k: nat)
      ensures k <= 4
      ensures k == 4 <==> stream.Some? && context.Some? && source.Some? && analyserId.Some?
    {
      if stream.None? then 0
      else if context.None? then 1
      else if source.None? then 2
      else if analyserId.None? then 3
      else 4
    }

    /** Every step succeeded. */
    predicate Succeeds() {
      StepsDone() == 4 && connected
    }
  }

  class PitchDetector {
    var noteDetails: Option<NoteDetails>
    var isListening: bool
    var error: Option<string>
    var audioContext: Option<AudioContext>
    var analyser: Option<AnalyserNode>
    var source: Option<SourceNode>
    var stream: Option<MediaStream>
    var animationFrameId: Option<FrameId>

    /** While listening, every handle is held and a frame is scheduled, and no error is shown. */
    ghost predicate Valid()
      reads this
    {
      && (analyser.Some? ==> analyser.value.fftSize == FftSize)
      && (isListening ==>
            && stream.Some? && audioContext.Some? && source.Some? && analyser.Some?
            && animationFrameId.Some? && error.None?)
    }

    /** Nothing held, nothing published, not listening. */
    ghost predicate Idle()
      reads this
    {
      && !isListening && noteDetails.None?
      && stream.None? && audioContext.None? && source.None? && analyser.None?
      && animationFrameId.None?
    }

    /** `audioContextRef.current?.sampleRate ?? 44100`. */
    function SampleRate(): (rate: real)
      reads this
      ensures audioContext.None? ==> rate == DefaultSampleRate
      ensures audioContext.Some? ==> rate == audioContext.value.sampleRate
    {
      if audioContext.Some? then audioContext.value.sampleRate else DefaultSampleRate
    }

    constructor ()
      ensures Valid() && Idle() && error.None?
    {
      noteDetails := None;
      isListening := false;
      error := None;
      audioContext := None;
      analyser := None;
      source := None;
      stream := None;
      animationFrameId := None;
    }

    /** The catch branch of `start`. */
    method Fail()
      modifies this`error, this`isListening
      ensures error == Some(MicrophoneDeniedMessage) && !isListening
    {
      error := Some(MicrophoneDeniedMessage);
      isListening := false;
    }

    /**
     * `start`: a no-op while listening; otherwise stores each handle as the
     * browser yields it. If every step succeeds it starts listening, clears
     * the error and schedules the first frame; if one throws it shows the
     * denial message and stays silent, keeping the handles stored so far.
     */
    method Start(acq: Acquisition, frame: FrameId)
      requires Valid()
      modifies this
      ensures Valid()
      ensures old(isListening) ==> unchanged(this)
      ensures !old(isListening) ==>
        && noteDetails == old(noteDetails)
        && (isListening <==> acq.Succeeds())
        && stream == (if acq.StepsDone() >= 1 then acq.stream else old(stream))
        && audioContext == (if acq.StepsDone() >= 2 then acq.context else old(audioContext))
        && source == (if acq.StepsDone() >= 3 then acq.source else old(source))
        && analyser == (if acq.StepsDone() >= 4 then Some(AnalyserNode(acq.analyserId.value, FftSize)) else old(analyser))
      ensures !old(isListening) && acq.Succeeds() ==>
        error.None? && animationFrameId == Some(frame)
      ensures !old(isListening) && !acq.Succeeds() ==>
        error == Some(MicrophoneDeniedMessage) && animationFrameId == old(animationFrameId)
    {
      if isListening {
        return;
      }
      if acq.stream.None? {
        Fail();
        return;
      }
      stream := acq.stream;
      if acq.context.None? {
        Fail();
        return;
      }
      audioContext := acq.context;
      if acq.source.None? {
        Fail();
        return;
      }
      source := acq.source;
      if acq.analyserId.None? {
        Fail();
        return;
      }
      analyser := Some(AnalyserNode(acq.analyserId.value, FftSize));
      if !acq.connected {
        Fail();
        return;
      }
      isListening := true;
      error := None;
      animationFrameId := Some(frame);
    }

    /**
     * `stop`: a no-op unless listening; otherwise cancels the pending frame,
     * drops every handle, stops listening and clears the reading. The error
     * is left as it was.
     */
    method Stop()
      requires Valid()
      modifies this
      ensures Valid()
      ensures !old(isListening) ==> unchanged(this)
      ensures old(isListening) ==> Idle() && error == old(error)
    {
      if !isListening {
        return;
      }
      if animationFrameId.Some? {
        animationFrameId := None;
      }
      audioContext := None;
      analyser := None;
      source := None;
      stream := None;
      isListening := false;
      noteDetails := None;
    }

    /**
     * One `processAudio` callback: without an analyser it returns at once and
     * publishes nothing. Otherwise it copies the analyser's newest `frame`
     * into a fresh buffer, finds the peak lag, publishes the reading for the
     * corresponding pitch and schedules the next frame. `noteNumberOf`
     * stands for `f => 12 * log2(f / C0)`.
     */
    method Tick(frame: seq<real>, noteNumberOf: real -> real, next: FrameId) returns (ghost bestLag: int)
      requires Valid()
      requires analyser.Some? ==> |frame| == analyser.value.fftSize
      modifies this
      ensures Valid()
      ensures old(analyser).None? ==> unchanged(this)
      ensures old(analyser).Some? ==>
        && IsPeakLag(frame, bestLag)
        && noteDetails == NoteDetailsOf(FrequencyOfLag(SampleRate(), bestLag), noteNumberOf(FrequencyOfLag(SampleRate(), bestLag)))
        && animationFrameId == Some(next)
        && isListening == old(isListening) && error == old(error)
        && stream == old(stream) && audioContext == old(audioContext)
        && source == old(source) && analyser == old(analyser)
      ensures old(analyser).Some? && SampleRate() > 0.0 ==> (noteDetails.None? <==> bestLag == -1)
    {
      bestLag := -1;
      if analyser.None? {
        return;
      }
      var bufferLength := analyser.value.fftSize;
      var buffer := new real[bufferLength](i requires 0 <= i < bufferLength => frame[i]);
      assert buffer[..] == frame;
      var lag := AutocorrelationPeak(buffer);
      var sampleRate := SampleRate();
      var frequency := FrequencyOfLag(sampleRate, lag);
      noteDetails := NoteDetailsOf(frequency, noteNumberOf(frequency));
      animationFrameId := Some(next);
      bestLag := lag;
    }
  }

  /**
   * Stopping silences the tuner for good: a frame callback that still fires
   * after `stop` publishes nothing, and the reading stays cleared.
   */
  method StopThenStaleTick(d: PitchDetector, frame: seq<real>, noteNumberOf: real -> real, next: FrameId)
    requires d.Valid() && d.isListening
    modifies d
    ensures d.Valid() && d.Idle()
  {
    d.Stop();
    var _ := d.Tick(frame, noteNumberOf, next);
  }
}

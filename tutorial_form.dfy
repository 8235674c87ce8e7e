/**
 * The tutorial request form: five pieces of state changed by their input
 * handlers, the two visibility flags and the disabled flag derived from
 * them, and the submit rule that decides whether, and with which optional
 * arguments, a tutorial is requested.
 */
module TutorialForm {
  import opened Wrappers
  import opened Types
  import opened JsString

  /** The arguments handed to `onGenerate`; an absent optional argument is `None`. */
  datatype GenerateCall = GenerateCall(
    song: string,
    artist: string,
    difficulty: Difficulty,
    style: Option<Style>,
    focus: Option<FingerpickingFocus>)

  class Form {
    var song: string
    var artist: string
    var difficulty: Difficulty
    var style: Style
    var fingerpickingFocus: FingerpickingFocus

    /** The initial state: empty texts, Easy, Chords, melody-only focus. */
    constructor()
      ensures song == [] && artist == []
      ensures difficulty == Easy && style == Chords && fingerpickingFocus == Melody
    {
      song := [];
      artist := [];
      difficulty := Easy;
      style := Chords;
      fingerpickingFocus := Melody;
    }

    /** The song input's change handler. */
    method SetSong(value: string)
      modifies this`song
      ensures song == value
    {
      song := value;
    }

    /** The artist input's change handler. */
    method SetArtist(value: string)
      modifies this`artist
      ensures artist == value
    {
      artist := value;
    }

    /**
     * A difficulty button. The style and focus chosen earlier are kept even
     * while Hard hides them, and come back into effect on leaving Hard.
     */
    method SetDifficulty(level: Difficulty)
      modifies this`difficulty
      ensures difficulty == level
    {
      difficulty := level;
    }

    /** A style button (shown only for Easy and Medium). */
    method SetStyle(option: Style)
      modifies this`style
      ensures style == option
    {
      style := option;
    }

    /** A focus button (shown only for fingerpicking). */
    method SetFingerpickingFocus(option: FingerpickingFocus)
      modifies this`fingerpickingFocus
      ensures fingerpickingFocus == option
    {
      fingerpickingFocus := option;
    }

    /** `showStyleOptions`: the style choice matters only below Hard. */
    predicate ShowStyleOptions()
      reads this
      ensures ShowStyleOptions() <==> difficulty != Hard
    {
      difficulty == Easy || difficulty == Medium
    }

    /** `showFocusOptions`: the focus choice matters only for fingerpicking below Hard. */
    predicate ShowFocusOptions()
      reads this
      ensures ShowFocusOptions() ==> ShowStyleOptions()
      ensures ShowFocusOptions() <==> difficulty != Hard && style == Fingerpicking
    {
      ShowStyleOptions() && style == Fingerpicking
    }

    /** The submit button's `disabled`: while loading, or while the song is blank. */
    predicate SubmitDisabled(isLoading: bool)
      reads this
      ensures SubmitDisabled(isLoading) <==>
        isLoading || forall k :: 0 <= k < |song| ==> IsWhitespace(song[k])
    {
      TrimEmpty(song);
      isLoading || Trim(song) == []
    }

    /**
     * `handleSubmit`: the call made to `onGenerate`, or `None` when nothing is
     * requested. A request goes out exactly when the button is enabled; the
     * texts are passed as typed, untrimmed; an optional argument is passed
     * exactly when its options are shown.
     */
    method HandleSubmit(isLoading: bool) returns (call: Option<GenerateCall>)
      ensures call.None? <==> SubmitDisabled(isLoading)
      ensures call.Some? <==> !isLoading && exists k :: 0 <= k < |song| && !IsWhitespace(song[k])
      ensures call.Some? ==>
        && call.value.song == song && call.value.artist == artist
        && call.value.difficulty == difficulty
        && (call.value.style.Some? <==> ShowStyleOptions())
        && (call.value.style.Some? ==> call.value.style.value == style)
        && (call.value.focus.Some? <==> ShowFocusOptions())
        && (call.value.focus.Some? ==> call.value.focus.value == fingerpickingFocus)
    {
      TrimEmpty(song);
      if Trim(song) != [] && !isLoading {
        if difficulty == Hard {
          call := Some(GenerateCall(song, artist, difficulty, None, None));
        } else {
          var focus := if style == Fingerpicking then Some(fingerpickingFocus) else None;
          call := Some(GenerateCall(song, artist, difficulty, Some(style), focus));
        }
      } else {
        call := None;
      }
    }
  }
}

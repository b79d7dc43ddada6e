/**
 * The `MultilingualMindReader` component as an object: its React state and
 * the variables of its interval callback are fields, and each handler or
 * timer firing updates them in place (app/page.tsx).
 */
module MindReaderComponent {
  import opened Wrappers
  import opened Locales
  import opened Phases
  import opened Session

  class MindReader {
    // React state
    var input: string
    var isLoading: bool
    var progress: nat
    var message: Option<string>
    var result: string
    var language: LanguageKey
    // the closure created by the latest `handleSubmit`
    var currentProgress: nat
    var capturedInput: string
    var capturedLanguage: LanguageKey
    var timerActive: bool

    /** The fields as a value. */
    function State(): Snapshot
      reads this
    {
      Snapshot(input, isLoading, progress, message, result, language,
               currentProgress, capturedInput, capturedLanguage, timerActive)
    }

    ghost predicate Valid()
      reads this
    {
      Inv(State())
    }

    /** Mounting the page in a browser whose language tag is `browserTag`. */
    constructor (browserTag: string)
      ensures Valid() && State() == Init(browserTag)
    {
      input, isLoading, progress, message, result := "", false, 0, Some(""), "";
      language := Baseline;
      currentProgress, capturedInput, capturedLanguage, timerActive := 0, "", Baseline, false;
      // the mount effect
      language := InferLanguage(browserTag);
    }

    /** Whether the submit button is disabled in the current render. */
    function SubmitButtonDisabled(): (r: bool)
      reads this
      ensures Valid() ==> (r <==> timerActive || input == "")
    {
      SubmitDisabled(isLoading, input)
    }

    /** The text field's `onChange`. */
    method EditInput(text: string)
      requires Valid()
      modifies this
      ensures Valid() && State() == Session.EditInput(old(State()), text)
    {
      if !InputDisabled(isLoading) {
        input := text;
      }
    }

    /** The language selector's `onValueChange`. */
    method SelectLanguage(code: LanguageKey)
      requires Valid()
      modifies this
      ensures Valid() && State() == Session.SelectLanguage(old(State()), code)
    {
      language := code;
    }

    /** A press of the submit button; `started` tells whether `handleSubmit` ran. */
    method Submit() returns (started: bool)
      requires Valid()
      modifies this
      ensures started <==> !old(isLoading) && old(input) != ""
      ensures Valid() && State() == Session.Submit(old(State()))
    {
      started := !SubmitDisabled(isLoading, input);
      if started {
        isLoading := true;
        progress := 0;
        result := "";
        currentProgress := 0;
        capturedInput, capturedLanguage := input, language;
        timerActive := true;
      }
    }

    /** One firing of the interval callback. */
    method Tick()
      requires Valid()
      modifies this
      ensures Valid() && State() == Session.Tick(old(State()))
    {
      if !timerActive {
        return;
      }
      if currentProgress >= 100 {
        timerActive := false;
        isLoading := false;
        result := capturedInput;
        message := Some("");
      } else {
        currentProgress := currentProgress + 10;
        progress := currentProgress;
        message := PhaseMessage(Languages[capturedLanguage].loadingMessages, currentProgress);
      }
    }
  }
}

/**
 * The page's state as a value, the enable/visibility rules of its view, and
 * the submit/timer state machine (app/page.tsx). Wall-clock time is replaced
 * by one `Tick` per firing of the 500 ms interval; `clearInterval` by the
 * `timerActive` flag turning false.
 */
module Session {
  import opened Wrappers
  import opened Locales
  import opened Phases

  /**
   * The component's React state (`input` .. `language`) together with the
   * state of the interval callback created by the latest submit: its
   * `currentProgress` counter, the `input` and `language` it closed over,
   * and whether its interval is still scheduled.
   */
  datatype Snapshot = Snapshot(
    input: string,
    isLoading: bool,
    progress: nat,
    message: Option<string>,
    result: string,
    language: LanguageKey,
    currentProgress: nat,
    capturedInput: string,
    capturedLanguage: LanguageKey,
    timerActive: bool)

  // ---- the view's `disabled` and visibility conditions ----

  /** The submit button's `disabled={isLoading || !input}`. */
  predicate SubmitDisabled(isLoading: bool, input: string)
  {
    isLoading || input == ""
  }

  /** The text field's `disabled={isLoading}`. */
  predicate InputDisabled(isLoading: bool)
  {
    isLoading
  }

  /** `{isLoading && ...}`: the progress bar and status line. */
  predicate ProgressVisible(isLoading: bool)
  {
    isLoading
  }

  /** `{result && ...}`: the result block, shown for a non-empty result. */
  predicate ResultVisible(result: string)
  {
    result != ""
  }

  /** The phase messages of a language. */
  function MessagesOf(code: LanguageKey): (messages: seq<string>)
    ensures |messages| == 7
  {
    TableShape();
    Languages[code].loadingMessages
  }

  // ---- transitions ----

  /** The first render followed by the mount effect that reads the browser tag. */
  function Init(browserTag: string): (s: Snapshot)
    ensures !s.isLoading && !s.timerActive && s.input == "" && s.result == ""
    ensures s.progress == 0 && s.message == Some("")
    ensures s.language == InferLanguage(browserTag)
  {
    Snapshot("", false, 0, Some(""), "", InferLanguage(browserTag), 0, "", Baseline, false)
  }

  /** Typing into the text field; a disabled field ignores it. */
  function EditInput(s: Snapshot, text: string): (r: Snapshot)
    ensures InputDisabled(s.isLoading) ==> r == s
    ensures !InputDisabled(s.isLoading) ==> r.input == text && r.(input := s.input) == s
  {
    if InputDisabled(s.isLoading) then s else s.(input := text)
  }

  /** The language selector; it offers only the table's codes and is never disabled. */
  function SelectLanguage(s: Snapshot, code: LanguageKey): (r: Snapshot)
    ensures r.language == code && r.(language := s.language) == s
  {
    s.(language := code)
  }

  /**
   * Pressing submit: `handleSubmit` when the button is enabled, nothing
   * otherwise. It captures the current input and language for the new
   * interval callback and leaves `message` and `language` as they were.
   */
  function Submit(s: Snapshot): (r: Snapshot)
    ensures SubmitDisabled(s.isLoading, s.input) ==> r == s
    ensures !SubmitDisabled(s.isLoading, s.input) ==>
      r.isLoading && r.timerActive && r.progress == 0 && r.currentProgress == 0 && r.result == ""
      && r.capturedInput == s.input && r.capturedLanguage == s.language
      && r.message == s.message && r.language == s.language && r.input == s.input
  {
    if SubmitDisabled(s.isLoading, s.input) then s
    else s.(isLoading := true, progress := 0, result := "",
            currentProgress := 0, capturedInput := s.input, capturedLanguage := s.language,
            timerActive := true)
  }

  /**
   * One firing of the interval. Below 100 it advances by 10 and shows the
   * phase message of the captured language; at 100 it stops the interval,
   * publishes the captured input and clears the message. A stopped interval
   * does not fire.
   */
  function Tick(s: Snapshot): (r: Snapshot)
    ensures !s.timerActive ==> r == s
    ensures s.timerActive && s.currentProgress < 100 ==>
      r.currentProgress == s.currentProgress + 10 && r.progress == r.currentProgress
      && r.message == PhaseMessage(MessagesOf(s.capturedLanguage), r.currentProgress)
      && r.timerActive && r.isLoading == s.isLoading && r.result == s.result
    ensures s.timerActive && s.currentProgress >= 100 ==>
      !r.timerActive && !r.isLoading && r.result == s.capturedInput && r.message == Some("")
      && r.currentProgress == s.currentProgress && r.progress == s.progress
    ensures r.input == s.input && r.language == s.language
    ensures r.capturedInput == s.capturedInput && r.capturedLanguage == s.capturedLanguage
  {
    if !s.timerActive then s
    else if s.currentProgress >= 100 then
      s.(timerActive := false, isLoading := false, result := s.capturedInput, message := Some(""))
    else
      var p := s.currentProgress + 10;
      s.(currentProgress := p, progress := p, message := PhaseMessage(MessagesOf(s.capturedLanguage), p))
  }

  /** `n` consecutive firings with no user action in between. */
  function Ticks(s: Snapshot, n: nat): Snapshot
    decreases n
  {
    if n == 0 then s else Ticks(Tick(s), n - 1)
  }

  // ---- interleaved runs ----

  /** What can happen to the page: a keystroke, a language choice, a submit press, a timer firing. */
  datatype Event = TypeText(text: string) | ChooseLanguage(code: LanguageKey) | PressSubmit | TimerFires

  function Step(s: Snapshot, e: Event): Snapshot
  {
    match e
    case TypeText(text) => EditInput(s, text)
    case ChooseLanguage(code) => SelectLanguage(s, code)
    case PressSubmit => Submit(s)
    case TimerFires => Tick(s)
  }

  function Run(s: Snapshot, events: seq<Event>): Snapshot
    decreases |events|
  {
    if events == [] then s else Run(Step(s, events[0]), events[1..])
  }

  /** The number of timer firings among `events`. */
  function TickCount(events: seq<Event>): nat
    decreases |events|
  {
    if events == [] then 0 else (if events[0].TimerFires? then 1 else 0) + TickCount(events[1..])
  }

  // ---- the invariant of every reachable state ----

  /**
   * The interval is scheduled exactly while loading; the progress bar shows
   * the callback's counter, a multiple of 10 no larger than 100; while idle
   * the message is empty; while loading the result is empty, the input is
   * the non-empty text captured at submit, and the message is the captured
   * language's phase message for the counter (empty before the first firing).
   */
  predicate Inv(s: Snapshot)
  {
    && s.timerActive == s.isLoading
    && s.progress == s.currentProgress
    && s.currentProgress <= 100 && s.currentProgress % 10 == 0
    && (!s.isLoading ==> s.message == Some(""))
    && (s.isLoading ==>
          && s.result == ""
          && s.input == s.capturedInput && s.capturedInput != ""
          && s.message == (if s.currentProgress == 0 then Some("")
                           else PhaseMessage(MessagesOf(s.capturedLanguage), s.currentProgress)))
  }

  lemma InitInv(browserTag: string)
    ensures Inv(Init(browserTag))
  {
  }

  lemma StepInv(s: Snapshot, e: Event)
    requires Inv(s)
    ensures Inv(Step(s, e))
  {
  }

  /** Every state reachable by any sequence of events keeps the invariant. */
  lemma {:induction false} RunInv(s: Snapshot, events: seq<Event>)
    requires Inv(s)
    ensures Inv(Run(s, events))
    decreases |events|
  {
    if events != [] {
      StepInv(s, events[0]);
      RunInv(Step(s, events[0]), events[1..]);
    }
  }

  /** Every state the page can reach from its first render keeps the invariant. */
  lemma ReachableInv(browserTag: string, events: seq<Event>)
    ensures Inv(Run(Init(browserTag), events))
  {
    InitInv(browserTag);
    RunInv(Init(browserTag), events);
  }

  // ---- what the view allows ----

  /** A press of submit starts a run exactly when idle with non-empty input. */
  lemma SubmitStartsRunIff(s: Snapshot)
    requires Inv(s)
    ensures Submit(s) != s <==> !s.isLoading && s.input != ""
    ensures Submit(s) != s ==> Submit(s).isLoading && Inv(Submit(s))
  {
  }

  /** While a run is in progress neither a submit press nor a keystroke changes anything. */
  lemma NoSubmitOrEditDuringRun(s: Snapshot, text: string)
    requires s.isLoading
    ensures Submit(s) == s && EditInput(s, text) == s
  {
  }

  /** The progress block is shown exactly while the interval runs; the result block is hidden for the whole run. */
  lemma VisibilityDuringRun(s: Snapshot)
    requires Inv(s)
    ensures ProgressVisible(s.isLoading) <==> s.timerActive
    ensures s.isLoading ==> !ResultVisible(s.result)
  {
  }

  // ---- the timer's run ----

  /** Each firing below 100 adds exactly 10; no firing moves progress down or past 100. */
  lemma TickProgress(s: Snapshot)
    requires Inv(s)
    ensures s.progress <= Tick(s).progress <= 100
    ensures s.isLoading && Tick(s).isLoading ==> Tick(s).progress == s.progress + 10
    ensures s.isLoading && !Tick(s).isLoading ==> s.progress == 100
  {
  }

  /**
   * Starting with an active interval at counter `c`, `k` firings with
   * `c + 10 k <= 100` advance the counter to `c + 10 k`, keep loading, and
   * show the captured language's phase message for that counter.
   */
  lemma {:induction false} TicksAdvance(s: Snapshot, k: nat)
    requires s.timerActive && s.isLoading && s.currentProgress + 10 * k <= 100
    ensures var r := Ticks(s, k);
      && r.timerActive && r.isLoading
      && r.currentProgress == s.currentProgress + 10 * k && r.progress == (if k == 0 then s.progress else r.currentProgress)
      && r.message == (if k == 0 then s.message else PhaseMessage(MessagesOf(s.capturedLanguage), r.currentProgress))
      && r.result == s.result && r.input == s.input && r.language == s.language
      && r.capturedInput == s.capturedInput && r.capturedLanguage == s.capturedLanguage
    decreases k
  {
    if k > 0 {
      TicksAdvance(Tick(s), k - 1);
    }
  }

  /** Once the interval is stopped, further firings change nothing. */
  lemma {:induction false} StoppedTicks(s: Snapshot, n: nat)
    requires !s.timerActive
    ensures Ticks(s, n) == s
    decreases n
  {
    if n > 0 {
      StoppedTicks(Tick(s), n - 1);
    }
  }

  /**
   * From an idle page with non-empty input, a submit is followed by exactly
   * ten advancing firings and one finishing firing: after the tenth the page
   * is still loading at 100 % with the message undefined; after the eleventh
   * it is idle, the interval is stopped, the result is the submitted input and
   * the message is empty; later firings change nothing.
   */
  lemma CompleteRun(s: Snapshot, extra: nat)
    requires Inv(s) && !SubmitDisabled(s.isLoading, s.input)
    ensures var ten := Ticks(Submit(s), 10);
      ten.isLoading && ten.progress == 100 && ten.message == None && ten.result == ""
    ensures var done := Ticks(Submit(s), 11);
      && !done.isLoading && !done.timerActive && done.progress == 100
      && done.result == s.input && done.message == Some("") && ResultVisible(done.result)
      && Ticks(done, extra) == done
  {
    var s0 := Submit(s);
    TicksAdvance(s0, 10);
    TableShape();
    PhaseMessageUndefinedOnlyAtFull(MessagesOf(s0.capturedLanguage), 100);
    TicksSplit(s0, 10, 1);
    StoppedTicks(Ticks(s0, 11), extra);
  }

  /** `m + n` firings are `m` firings followed by `n`. */
  lemma {:induction false} TicksSplit(s: Snapshot, m: nat, n: nat)
    ensures Ticks(s, m + n) == Ticks(Ticks(s, m), n)
    decreases m
  {
    if m > 0 {
      TicksSplit(Tick(s), m - 1, n);
    }
  }

  /**
   * In a run interleaved with any user actions, as long as no more than the
   * remaining number of advancing firings happen, the page keeps loading, the
   * counter grows by 10 per firing, and the input, result and captured
   * language are untouched: choosing another language mid-run does not
   * change the message table, and the input cannot be edited.
   */
  lemma {:induction false} RunWhileLoading(s: Snapshot, events: seq<Event>)
    requires Inv(s) && s.isLoading && s.currentProgress + 10 * TickCount(events) <= 100
    ensures var r := Run(s, events);
      && r.isLoading && r.currentProgress == s.currentProgress + 10 * TickCount(events)
      && r.input == s.input && r.result == ""
      && r.capturedInput == s.capturedInput && r.capturedLanguage == s.capturedLanguage
      && (r.currentProgress > 0 ==> r.message == PhaseMessage(MessagesOf(s.capturedLanguage), r.currentProgress))
    decreases |events|
  {
    if events != [] {
      StepInv(s, events[0]);
      RunWhileLoading(Step(s, events[0]), events[1..]);
    }
  }

  /** The finishing firing of a run publishes the text captured at submit and reveals the result block. */
  lemma FinishingTick(s: Snapshot)
    requires Inv(s) && s.isLoading && s.currentProgress == 100
    ensures var r := Tick(s);
      !r.isLoading && !r.timerActive && r.result == s.capturedInput && r.message == Some("")
      && ResultVisible(r.result) && Inv(r)
  {
  }

  /**
   * Choosing a language while a run is in progress switches the page's
   * `language` (and so its title, placeholder and button label) but not
   * the phase messages, which keep the language captured at submit: the
   * page can show two languages at once.
   */
  lemma LanguageChoiceDuringRunKeepsMessages(s: Snapshot, code: LanguageKey)
    requires Inv(s) && s.isLoading
    ensures var r := Tick(SelectLanguage(s, code));
      r.language == code && r.message == Tick(s).message
      && (s.currentProgress < 100 ==>
            r.message == PhaseMessage(MessagesOf(s.capturedLanguage), s.currentProgress + 10))
  {
  }

  /** An English run with Spanish chosen right after submit: the page is Spanish, the status line English. */
  lemma MixedLanguagesExample(s: Snapshot)
    requires Inv(s) && s.language == "en" && !SubmitDisabled(s.isLoading, s.input)
    ensures var r := Tick(SelectLanguage(Submit(s), "es"));
      r.language == "es" && r.message == Some(MessagesOf("en")[0])
      && r.message != Some(MessagesOf("es")[0])
  {
    LanguageChoiceDuringRunKeepsMessages(Submit(s), "es");
  }

  /**
   * A run with any user actions mixed in: after a submit and any events
   * holding exactly ten firings, the page is still loading at 100 %, and the
   * next firing ends loading, stops the interval, clears the message and
   * publishes the input as it was at submit, so the result block appears.
   */
  lemma InterleavedCompleteRun(s: Snapshot, events: seq<Event>)
    requires Inv(s) && !SubmitDisabled(s.isLoading, s.input) && TickCount(events) == 10
    ensures var r := Run(Submit(s), events);
      r.isLoading && r.progress == 100
      && var done := Tick(r);
      !done.isLoading && !done.timerActive && done.result == s.input
      && done.message == Some("") && ResultVisible(done.result)
  {
    StepInv(s, PressSubmit);
    RunWhileLoading(Submit(s), events);
    RunInv(Submit(s), events);
    FinishingTick(Run(Submit(s), events));
  }

  /** Entering "42" in the baseline language and waiting 11 firings shows "42". */
  lemma Scenario42()
    ensures var s := Submit(EditInput(Init("en-US"), "42"));
      s.capturedLanguage == "en" && Ticks(s, 11).result == "42"
  {
    var s := EditInput(Init("en-US"), "42");
    InferLanguageExamples();
    CompleteRun(s, 0);
  }
}

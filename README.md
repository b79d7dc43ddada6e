# Mind Reader 3000: a Dafny model

The system is a single page. The user types a text and presses "Read My Mind".
A fake progress animation runs for eleven firings of a 500 ms interval and then
shows the typed text back as the "result". The page's strings come from a static
table of three languages (`en`, `es`, `it`). The initial language is inferred
from the browser's language tag, and a selector can change it at any time.

The model has five modules:

- `Wrappers` (`wrappers.dfy`): `Option`. `None` stands for JavaScript's `undefined`.
- `Locales` (`locales.dfy`): the `languages` table as a map, `LanguageKey` as the
  subset of strings that are keys of that map, the `split("-")[0]` rule
  (`PrimarySubtag`) and the mount effect's choice of language (`InferLanguage`).
- `Phases` (`phases.dfy`): the phase-message index `floor(p / 100 * count)` and the
  array read it feeds. That read yields `None` when the index is past the end.
- `Session` (`session.dfy`): the page state as a value (`Snapshot`). It holds the
  React state plus the variables of the latest interval callback: its
  `currentProgress`, the `input` and `language` it captured, and whether the
  interval is still scheduled. The module also has the view's `disabled` and
  visibility conditions and the transitions `Init`, `EditInput`,
  `SelectLanguage`, `Submit` and `Tick`. Interleaved user and timer events are
  modelled by `Step`/`Run`, and `Inv` is an invariant of every reachable state.
- `MindReaderComponent` (`mind_reader.dfy`): the component as a class whose fields
  are that state. Its handlers and its timer firing update the fields in place,
  and each one is proved to produce `Session`'s transition of the old state.

Timing is discrete: each call to `Tick` stands for one firing of the interval.
`clearInterval` is modelled by the `timerActive` flag turning false, and a
stopped interval never fires again. `Submit` models a press of the submit
button. When the button is disabled, the press does nothing.

Three behaviours of the code are worth stating, because a reader might expect
otherwise:

- The phase-message index is not clamped. At 100 % it equals the number of
  messages, so for one firing the `message` state is `undefined` (`None` here)
  and the status line under the progress bar is blank
  (`Phases.PhaseMessageUndefinedOnlyAtFull`, `Session.CompleteRun`).
- Choosing another language during a run switches the title, placeholder
  and button label at once, while the status line keeps the language captured
  at submit, so the page shows two languages together
  (`Session.LanguageChoiceDuringRunKeepsMessages`, `Session.RunWhileLoading`).
  The result block, with its title, is hidden throughout a run.
- Before the first run the result is the empty string, not an absent value.

## Model

| member | source | states |
|---|---|---|
| `Locales.TableShape` | app/page.tsx:9-55 | the table's keys are exactly en, es and it, and every language has seven phase messages |
| `Locales.PrimarySubtag` | app/page.tsx:68 | the result is the longest hyphen-free prefix of the tag: a prefix with no `-` that is either the whole tag or followed by `-` |
| `Locales.PrimarySubtagIs` | app/page.tsx:68 | for a hyphen-free `p`, the primary subtag is `p` if and only if the tag is `p` or starts with `p-` |
| `Locales.InferLanguage` | app/page.tsx:67-70 | the chosen language is the primary subtag, or the baseline `en` when the table lacks that subtag |
| `Locales.InferLanguageAlternate` | app/page.tsx:67-70 | `es` (or `it`) is chosen if and only if the tag is that code or starts with that code and `-`, case-sensitively |
| `Locales.InferLanguageBaseline` | app/page.tsx:67-70 | `en` is chosen if and only if the primary subtag is neither `es` nor `it`, which includes the empty tag and unknown tags |
| `Locales.InferLanguageExamples` | app/page.tsx:67-70 | `es-MX` gives es, `it` gives it, `en-US` gives en, and `fr-FR`, `ES-mx` and the empty tag give en |
| `Phases.PhaseIndex` | app/page.tsx:90 | the index is the floor of `p * count / 100`: the largest `i` with `100 i <= p count` |
| `Phases.PhaseMessage` | app/page.tsx:88-92 | a message is present exactly when the index is within the message list, and then it is the list's element at that index |
| `Phases.PhaseIndexInRange` | app/page.tsx:88-92 | for a non-empty list, the index is in range if and only if `p < 100` |
| `Phases.PhaseIndexAtFull` | app/page.tsx:90 | at `p = 100` the index equals the list's length, one past the last message |
| `Phases.PhaseIndexMonotone` | app/page.tsx:90 | a larger percentage never gives a smaller index |
| `Phases.SevenPhaseIndices` | app/page.tsx:15-23 | with seven messages, 10 % .. 90 % give 0,1,2,2,3,4,4,5,6 and 100 % gives 7 |
| `Phases.PhaseMessageUndefinedOnlyAtFull` | app/page.tsx:88-92 | for a non-empty list and `p <= 100`, the message is undefined if and only if `p = 100`, and below that it is the indexed one |
| `Session.SubmitDisabled` | app/page.tsx:121 | the definition of the button's disabled condition: loading or an empty input |
| `Session.InputDisabled` | app/page.tsx:119 | the text field is disabled exactly while loading |
| `Session.ProgressVisible` | app/page.tsx:125 | the definition of the progress block's condition: it is shown while loading |
| `Session.ResultVisible` | app/page.tsx:131 | the definition of the result block's condition: it is shown for a non-empty result |
| `Session.MessagesOf` | app/page.tsx:89 | a language's phase-message list, which has seven entries |
| `Session.Init` | app/page.tsx:60-70 | the page starts idle, with empty input, result and message, progress 0, no interval, and the inferred language |
| `Session.EditInput` | app/page.tsx:116-119 | a disabled (loading) field ignores typing; otherwise only the input changes, to the typed text |
| `Session.SelectLanguage` | app/page.tsx:100 | only the language changes, to the chosen code |
| `Session.Submit` | app/page.tsx:72-78 | a disabled button does nothing; otherwise the run starts with loading on, progress and counter 0, result empty, input and language captured, and message, language and input kept |
| `Session.Tick` | app/page.tsx:79-94 | a stopped interval changes nothing; below 100 the counter and progress rise by 10 and the captured language's phase message is shown; at 100 the interval stops, loading ends, the captured input is published and the message is cleared |
| `Session.InitInv` | app/page.tsx:60-70 | the first state satisfies the invariant |
| `Session.StepInv` | app/page.tsx:72-121 | every keystroke, language choice, submit press and timer firing preserves the invariant |
| `Session.RunInv` | app/page.tsx:72-121 | any sequence of events preserves the invariant |
| `Session.ReachableInv` | app/page.tsx:60-121 | every state reachable from the first render satisfies the invariant: progress is a multiple of 10 and at most 100, and while loading the input equals the captured text, the result is empty and the message comes from the captured language |
| `Session.SubmitStartsRunIff` | app/page.tsx:121 | a submit press starts a run if and only if the page is idle and the input is non-empty |
| `Session.NoSubmitOrEditDuringRun` | app/page.tsx:119-121 | while loading, neither a submit press nor typing changes the state |
| `Session.VisibilityDuringRun` | app/page.tsx:125-136 | the progress block is visible exactly while the interval runs, and the result block is hidden throughout a run |
| `Session.TickProgress` | app/page.tsx:80-87 | a firing never lowers progress or takes it past 100, and a firing that keeps loading adds exactly 10 |
| `Session.TicksAdvance` | app/page.tsx:85-92 | `k` firings that stay within 100 add `10 k` to the counter, keep loading, and show the captured language's message for the new counter |
| `Session.StoppedTicks` | app/page.tsx:80-81 | after the interval is cleared, any number of firings change nothing |
| `Session.CompleteRun` | app/page.tsx:72-95 | after a submit, ten firings reach 100 % still loading with the message undefined; the eleventh ends loading, stops the interval, publishes the submitted input, clears the message and shows the result block; later firings change nothing |
| `Session.RunWhileLoading` | app/page.tsx:79-92 | during a run interleaved with any user actions, the input, result and captured language stay fixed, and each firing adds 10, so a language change mid-run does not change the message table |
| `Session.InterleavedCompleteRun` | app/page.tsx:72-95 | after a submit and any mix of user actions with exactly ten firings, the page is loading at 100 %, and the next firing ends loading, stops the interval, clears the message and publishes the submitted input |
| `Session.FinishingTick` | app/page.tsx:80-84 | the finishing firing publishes the text captured at submit, which is non-empty, so the result block appears |
| `Session.LanguageChoiceDuringRunKeepsMessages` | app/page.tsx:89-90 | during a run, choosing a language changes `language` but the next firing shows the same message as without the choice, taken from the captured language |
| `Session.MixedLanguagesExample` | app/page.tsx:100-133 | after an English submit and a switch to Spanish, the first firing leaves the page in Spanish with the English first phase message |
| `Session.Scenario42` | app/page.tsx:72-95 | with an `en-US` browser, typing `42` and submitting captures en, and eleven firings later the result is `42` |
| `MindReaderComponent.MindReader.constructor` | app/page.tsx:60-70 | the new component's fields equal `Init` of the browser tag and satisfy the invariant |
| `MindReaderComponent.MindReader.SubmitButtonDisabled` | app/page.tsx:121 | in a valid state the button is disabled if and only if the interval runs or the input is empty |
| `MindReaderComponent.MindReader.EditInput` | app/page.tsx:116-119 | the fields afterwards are `Session.EditInput` of the fields before, and the invariant holds |
| `MindReaderComponent.MindReader.SelectLanguage` | app/page.tsx:100 | the fields afterwards are `Session.SelectLanguage` of the fields before, and the invariant holds |
| `MindReaderComponent.MindReader.Submit` | app/page.tsx:72-78 | `started` holds if and only if the page was idle with non-empty input; the fields afterwards are `Session.Submit` of the fields before |
| `MindReaderComponent.MindReader.Tick` | app/page.tsx:79-94 | the fields afterwards are `Session.Tick` of the fields before, and the invariant holds |

## Left out

- Rendering, CSS classes and the UI components `Input`, `Button`, `Progress` and `Select` (app/page.tsx:4-7, 97-139). They are presentation and foreign code. Only the `disabled` and visibility conditions are modelled.
- The 500 ms period and the real `setInterval`/`clearInterval`. Each firing is one `Tick` call, and clearing the interval is the `timerActive` flag.
- `navigator.language`. It becomes the constructor's `browserTag` parameter.
- Floating point in `Math.floor((currentProgress / 100) * length)`. The model uses the integer `p * count / 100`. For percentages that are multiples of 10 and seven messages, it gives the same indices.
- JavaScript's prototype lookup in `languages[browserLang]`, where a tag such as `constructor` would also count as a known key. The model tests membership in the three declared keys only.
- `handleSubmit` running while an interval is already active, which would create a second interval. The disabled button and the disabled text field make this impossible, so `Submit` does nothing when the button is disabled.
- React's render timing. The first render, which briefly shows `en` before the mount effect runs, is folded into `Init`. State updates are applied atomically per handler or firing.
- Unmounting the page while an interval runs. The code has no cleanup for that case.
- The result title, which uses the current language rather than the captured one. It is a display string only.
- `e.preventDefault()`. It suppresses the browser's page navigation, and nothing in the model navigates.

# Practice-test pages: a Dafny model

The application lets a learner build a practice test, take it against a
countdown, and read a scored result; a separate page drills flashcards.
Almost all of it is presentation. This project models the logic inside the
four pages that hold some:

- **Test runner** (`TestRunnerPage`): a `Session` class holding the question
  index, the answer map, the seconds left and the confirm-dialog flag,
  with one method per handler (Previous, Next, sidebar jump, answer entry,
  timer tick, open / cancel / confirm of the submit dialog). Beside it are
  the pure rules: the clamped navigation, the multi-select toggle, the
  `mm:ss` timer text and the timer's colour band.
- **Test builder** (`TestBuilderPage`): `ResolveConfig` turns the form
  (exam preset, difficulty, duration preset, custom duration, custom
  format, parsed topics) into a validation error or a generation request.
  Around it, a `Builder` class holds the loading / error / generated-test
  state, updated by the Generate handler, the syllabus upload and the
  completions of the two service calls. `GenerateDisabled` is the rule that
  enables the Generate button.
- **Flashcards** (`LearnPage`): a `Deck` class with a bounded card index
  and a flipped flag, its Next / Previous / Flip handlers and the key map.
  Pure step functions (`AfterNext`, `AfterPrev`, `Apply`, `Run`) specify
  them.
- **Result** (`TestResultPage`): the three-band score colour and the page
  shown with and without a result.

Shared records (`Question`, `Test`, `TestResult`, `Flashcard`) are in
`Types`, the mock test in `Constants`, `Option` / `Result` in `Wrappers`.

The service calls (test generation, syllabus parsing) are opaque. Their
outcomes are passed in as parameters of the methods that handle them.
Timers, file reading and navigation are modelled as method calls, not as
scheduled callbacks.

The code has none of the following guards, and neither does the model:

- No forced submission when the clock reaches zero. The tick only floors
  at 0.
- Nothing locks a session after it is submitted. Confirming only closes the
  dialog and returns the grading route.
- The custom exam name is not validated.
- Generated questions and results are not validated. A zero-question
  response is stored as it is.
- The multi-select answer is a list: the toggle appends at the end and
  drops all copies. It is not a set.
- The duration of every session is 15 minutes. The route's generated test
  gets a placeholder of 15, and the mock test also has 15.

Behaviour of the code that the proofs make explicit:

- For a test with no questions, Next moves the index from 0 to -1.
  That is `min(len - 1, i + 1)` with `len = 0`
  (`NextOnEmptyTestLeavesList`). The session invariant therefore allows
  -1 and 0 for an empty test.
- The answer handler's multi-select test compares against an enum member
  that does not exist. No question takes the toggle branch
  (`NoQuestionIsMultiSelect`), so the toggle is modelled as its own
  operation, `ToggleAnswer`.
- Toggling the same option twice restores the list when the option was not
  selected, or was selected once as the last entry (`ToggleTwiceRestores`).
  Otherwise every copy is removed and one is appended at the end
  (`ToggleTwiceFromSelected`, `ToggleTwiceMayReorder`). The selected ids
  are always restored, every other id keeps its count, and the whole
  multiset is restored when the list has no duplicates.
- For a custom exam whose parsed topic list is empty, the Generate button is
  enabled, but the handler refuses the configuration
  (`EnabledGenerateResolves`).

## Model

| member | source | states |
|---|---|---|
| `TestRunnerPage.SessionTest` | pages/TestRunnerPage.tsx:15-21 | With route state, the test carries the route's questions and name and the route id, or "generated-test" when the id is missing or empty. Without route state, it is the mock test. The duration is 15 minutes either way. |
| `TestRunnerPage.NavigationStaysInRange` | pages/TestRunnerPage.tsx:125-128 | Previous and Next keep the index in range. In a non-empty test, each moves exactly when its button is enabled (not at 0, not at the last index). Each moves by exactly one. |
| `TestRunnerPage.NextOnEmptyTestLeavesList` | pages/TestRunnerPage.tsx:128 | With zero questions, Next takes the index from 0 to -1, and Previous brings it back to 0. |
| `TestRunnerPage.NoQuestionIsMultiSelect` | pages/TestRunnerPage.tsx:38 | No question of either enum type passes the multi-select test, because the enum has no such member. |
| `TestRunnerPage.Without` | pages/TestRunnerPage.tsx:41 | Filtering an option out leaves no copy of it and keeps every other id as often as it occurred. The result is never longer, and a list without the option is returned unchanged. |
| `TestRunnerPage.WithoutConcat` | pages/TestRunnerPage.tsx:41 | The filter keeps order: filtering a concatenation is filtering each part, in the same order. |
| `TestRunnerPage.Toggled` | pages/TestRunnerPage.tsx:38-43 | A selected option is filtered out; an unselected one is appended at the end with the list otherwise untouched. So the option is selected afterwards exactly when it was not before, and every other id keeps its membership and its count. |
| `TestRunnerPage.ToggleKeepsDistinct` | pages/TestRunnerPage.tsx:38-43 | The toggle never introduces a duplicate option id. |
| `TestRunnerPage.ToggleTwiceFromUnselected` | pages/TestRunnerPage.tsx:38-43 | Toggling an unselected option twice gives back the identical list. |
| `TestRunnerPage.ToggleTwiceSameSelection` | pages/TestRunnerPage.tsx:38-43 | Toggling any option twice gives back the same selected ids, and every other id as often as before. For a list without duplicates, it also gives back the same multiset. |
| `TestRunnerPage.ToggleTwiceFromSelected` | pages/TestRunnerPage.tsx:40-42 | Toggling a selected option twice removes every copy of it and appends one at the end. |
| `TestRunnerPage.ToggleTwiceRestores` | pages/TestRunnerPage.tsx:40-42 | Toggling twice gives back the identical list exactly when the option was not selected, or was selected once as the last entry. |
| `TestRunnerPage.ToggleTwiceMayReorder` | pages/TestRunnerPage.tsx:40-42 | A witness that the list can change: toggling twice a selected option that is not the last entry moves it to the end. |
| `TestRunnerPage.FormatTimeRoundTrip` | pages/TestRunnerPage.tsx:87-91 | The timer text reads back as the seconds it was made from (minutes × 60 + seconds). The seconds field is two digits below 60. Below 6000 seconds the text is exactly five characters. |
| `TestRunnerPage.TimeColor` | pages/TestRunnerPage.tsx:93-98 | Red when less than a tenth of the test time is left, yellow from a tenth up to three tenths, neutral otherwise. The three bands are disjoint and cover every input. |
| `TestRunnerPage.TimeColorMonotone` | pages/TestRunnerPage.tsx:93-98 | Less time left never gives a less urgent band. A full clock is neutral, and an empty clock is red. |
| `TestRunnerPage.Ticked` | pages/TestRunnerPage.tsx:32 | A tick lowers a positive clock by exactly one and leaves it at 0 otherwise. The clock is never negative. |
| `TestRunnerPage.TickedTimesFloors` | pages/TestRunnerPage.tsx:30-35 | After n ticks the clock reads max(0, start − n). It never increases and never goes negative. |
| `TestRunnerPage.Session.constructor` | pages/TestRunnerPage.tsx:23-26 | A new session is on question 0, has no answers and 900 seconds on the clock (duration × 60), and the dialog is closed. |
| `TestRunnerPage.Session.Tick` | pages/TestRunnerPage.tsx:32 | The clock becomes the floored decrement and never rises. The session invariant is kept. |
| `TestRunnerPage.Session.Previous` | pages/TestRunnerPage.tsx:125 | The index becomes max(0, i − 1) and stays in range. |
| `TestRunnerPage.Session.Next` | pages/TestRunnerPage.tsx:128 | The index becomes min(len − 1, i + 1) and stays in range. |
| `TestRunnerPage.Session.JumpTo` | pages/TestRunnerPage.tsx:136-139 | A sidebar button sets the index to its own position, which is a valid index. |
| `TestRunnerPage.Session.AnswerChange` | pages/TestRunnerPage.tsx:37-47 | The new value replaces any earlier answer for that question id. Every other entry is unchanged. |
| `TestRunnerPage.Session.ToggleAnswer` | pages/TestRunnerPage.tsx:38-43 | The multi-select branch as written: the stored list (empty when absent) is toggled. The option ends up selected exactly when it was not, and no other entry changes. |
| `TestRunnerPage.Session.OpenConfirm` | pages/TestRunnerPage.tsx:115 | Submit Test opens the confirm dialog. Nothing else changes. |
| `TestRunnerPage.Session.CancelConfirm` | pages/TestRunnerPage.tsx:155-159 | Cancel, or closing the dialog, shuts the dialog. Nothing else changes. |
| `TestRunnerPage.Session.ConfirmSubmit` | pages/TestRunnerPage.tsx:100-103 | Confirming closes the dialog and yields the route "/grading/" + test id. Answers, index and clock are untouched. |
| `TestBuilderPage.PresetTopicsKnownOnly` | pages/TestBuilderPage.tsx:99-103 | Only GRE and SAT have topics (three and four). Any other preset gets an empty list. |
| `TestBuilderPage.DurationPresetsOrdered` | pages/TestBuilderPage.tsx:104-105 | Exactly quick, standard and endurance have a count (5, 10 and 25, in increasing order). Any other key is undefined. |
| `TestBuilderPage.QuestionsForMinutes` | pages/TestBuilderPage.tsx:84 | The count is the ceiling of duration / 5: 5(n − 1) < minutes ≤ 5n. A positive duration gives at least one question. |
| `TestBuilderPage.DefaultCustomResolution` | pages/TestBuilderPage.tsx:83-96 | The starting form (custom exam, 60 minutes, mixed format), once a syllabus is parsed, asks for 12 questions of both types on exactly the parsed topics. |
| `TestBuilderPage.QuestionTypesForFormat` | pages/TestBuilderPage.tsx:86-96 | Every format yields one or two distinct types. Multiple choice is dropped only for "subjective", and short answer only for "objective". |
| `TestBuilderPage.ResolveConfig` | pages/TestBuilderPage.tsx:73-107 | Resolution fails exactly for a custom exam whose topics are null or empty, with the upload-a-syllabus message. On success the difficulty passes through and at least one question type is requested. |
| `TestBuilderPage.CustomResolution` | pages/TestBuilderPage.tsx:83-96 | A custom exam with topics sends exactly those topics and ceil(duration / 5) questions, with the types of its format. |
| `TestBuilderPage.PresetResolution` | pages/TestBuilderPage.tsx:97-107 | A preset exam always resolves: exactly the table's topics (empty only for an unknown preset), the duration preset's count, and both question types. |
| `TestBuilderPage.EnabledGenerateResolves` | pages/TestBuilderPage.tsx:132-136 | Generate is enabled exactly when nothing is loading and, for a custom exam, a file is chosen and its topics are parsed. When enabled, the handler refuses only a custom exam whose parsed topic list is empty. |
| `TestBuilderPage.ErrorText` | pages/TestBuilderPage.tsx:118 | A service error's message is shown when it is non-empty. Otherwise the page's fallback text is shown, so the shown error is never empty. |
| `TestBuilderPage.Builder.constructor` | pages/TestBuilderPage.tsx:21-37 | The initial form is custom, standard, standard, 60 minutes and mixed, with no file, no topics, no loading, no error and no questions. |
| `TestBuilderPage.Builder.StartGeneration` | pages/TestBuilderPage.tsx:67-82 | Generate sets loading and clears the error and the earlier questions. A refused configuration stores its error, stops loading and sends no request. Otherwise the resolved request is sent and loading stays on. |
| `TestBuilderPage.Builder.FinishGeneration` | pages/TestBuilderPage.tsx:109-121 | On success the questions are stored; on failure the message or its fallback is stored. Loading is cleared either way. |
| `TestBuilderPage.Builder.SelectSyllabus` | pages/TestBuilderPage.tsx:41-50 | Choosing a file records it, resets the parsed topics to null, clears the error and starts loading. Choosing no file changes nothing. |
| `TestBuilderPage.Builder.FinishSyllabusParse` | pages/TestBuilderPage.tsx:52-61 | Parse success stores the topics; failure stores the message or its fallback. Loading is cleared either way. |
| `LearnPage.KeyActionOnlyHandledKeys` | pages/Learn.tsx:38-45 | ArrowRight means Next, ArrowLeft means Previous and Space means Flip. Every other code is ignored. On the card itself, only Enter acts, and it flips. |
| `LearnPage.ApplyStaysInDeck` | pages/Learn.tsx:18-34 | Every input keeps the index in the deck and moves it by at most one. A move shows the card face up (front). |
| `LearnPage.RunStaysInDeck` | pages/Learn.tsx:22-34 | From any in-deck position, including the initial first card, no sequence of inputs leaves the deck. |
| `LearnPage.NextThenPrev` | pages/Learn.tsx:22-34 | Next then Previous from any card but the last returns to that card, front up. At the last card, Next does nothing. |
| `LearnPage.FlipTwice` | pages/Learn.tsx:18-20 | Flip always changes the face, and flipping twice restores it. |
| `LearnPage.EmptyDeckNeverMoves` | pages/Learn.tsx:22-34 | While the deck is empty, no input moves the index from 0 (a consequence of `RunStaysInDeck`). |
| `LearnPage.Deck.constructor` | pages/Learn.tsx:7-9 | The page starts with no cards, the first position and the front up. |
| `LearnPage.Deck.Load` | pages/Learn.tsx:11-16 | The mount effect stores the shuffled deck and leaves the index at 0. |
| `LearnPage.Deck.Next` | pages/Learn.tsx:22-27 | Moves one card on and turns it front up, only below the last card. Otherwise nothing changes. |
| `LearnPage.Deck.Prev` | pages/Learn.tsx:29-34 | Moves one card back and turns it front up, only above the first card. Otherwise nothing changes. |
| `LearnPage.Deck.Flip` | pages/Learn.tsx:18-20 | Toggles the face. |
| `LearnPage.Deck.KeyDown` | pages/Learn.tsx:37-45 | A key does exactly what its mapped action does to the view. An unmapped key changes nothing. |
| `TestResultPage.ScoreColor` | pages/TestResultPage.tsx:33-37 | Green exactly from 80, yellow exactly from 60 to below 80, red exactly below 60. Every score is in exactly one band. |
| `TestResultPage.ScoreColorMonotone` | pages/TestResultPage.tsx:33-37 | A higher score never gets a worse band. |
| `TestResultPage.Render` | pages/TestResultPage.tsx:22-39 | The "no result" view appears exactly when there is no result. Otherwise the page reports the result's own counts, summary, strengths and weaknesses unchanged, and colours the score on screen. |
| `TestResultPage.CountUpBands` | pages/TestResultPage.tsx:12-19 | The shown score starts at 0, in the red band. After the count-up it is the result's score, in that score's band. |

## Left out

- The generation and syllabus-parsing services (services/geminiService.ts) are opaque. The model takes their outcome as a success or an error message. Prompts, schemas and JSON parsing are not modelled.
- services/api.ts, pages/GradingPage.tsx, the dashboard, profile, settings, library, layout and UI components, icons, routing and the achievements data are presentation or network plumbing with no state logic.
- Scheduling is not modelled: `setInterval`, `setTimeout`, `FileReader` callbacks, `navigate` and `alert`. A tick, a count-up or a completion is a method call or a flag, and the confirm step returns the route it would navigate to.
- Service completions can be applied in any order, as in the code. Neither the code nor the model discards a stale completion.
- A syllabus read that fails never completes, because the code has no error handler for the reader. This is modelled by never calling `FinishSyllabusParse`.
- The random shuffle of the flashcard deck is not modelled. `Deck.Load` takes the shuffled deck as a parameter. The deck's source list is not part of this model: pages/Learn.tsx imports `MOCK_FLASHCARDS` from the constants module, which does not export it, so as written the page has no deck to load.
- TestRunnerPage.TimeColor: compares the time fraction by integer cross-multiplication, not by floating-point division. Rounding of the float quotient is not captured. A zero duration gives neutral, like the code's NaN and Infinity comparisons.
- TestRunnerPage.Session.ToggleAnswer: requires the stored entry to be absent or a list. The code's behaviour on a text entry (string methods on a cast value) is not modelled.
- TestRunnerPage.Session.AnswerChange: requires a question on screen. The code only calls it from the rendered question's input.
- Questions whose type is neither enum value render as unsupported and accept no answer. They are not modelled.
- Scores, durations and counts are whole numbers. Fractional or NaN values from number inputs or service payloads are not modelled.
- Lookups of the topic and duration tables with inherited object property names (such as "toString") are not modelled. The form's selects never produce them.
- The sidebar's answered shading, the "Question i of n" text, loading messages as displayed text, class names and the Start Test button (navigate plus alert) are presentation.

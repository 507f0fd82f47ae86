# StudyMate AI: form validation and quiz session

A Dafny model of the two pieces of logic in the StudyMate AI study-quiz generator.

- **The study form** (`src/Home.jsx`). The form holds a topic, an optional pasted text or PDF, a study level, a specialty and a session length. Three validation rules each add one entry to an error map. A chosen PDF clears the text. A valid submission forwards the form together with a question count looked up from the session length.
- **The quiz session** (`src/App.jsx`). Six pieces of state are changed by these transitions: generation success, generation failure, answer, next, submit and restart. The screen shown (Home, Quiz or Results) is derived from the state.

Files:

- `wrappers.dfy`: `Option`, used for the source's `null` and `undefined`.
- `jsstring.dfy`: JavaScript's `trim` and `split(' ')` as functions on strings, with their properties. `trim` removes the ECMAScript white-space and line-terminator characters. `split` keeps the empty pieces.
- `home.dfy`: the form record and the reference error map `Errors`. The class `HomeState` has the fields `formData` and `errors`. Its methods are the input handlers, `HandleFileChange`, `ValidateForm` and `HandleSubmit`.
- `app.dfy`: the class `AppState` with the six fields of the session. Its methods are the handlers, and `View` selects the screen. The question generator is not modelled. Each call of `GenerateQuestions` receives the generator's outcome as an arbitrary `Reply` parameter: a list of questions or a failure. The method returns the `Request` it would send.
- `scenarios.dfy`: two client scenarios, verified from the contracts alone. One shows that a blank topic blocks submission. The other walks a two-question quiz from a failed attempt through to Results and back to Home.

Invariants kept by the classes:

- `HomeState.Valid`: a chosen file is a PDF and the text is then empty. Both selects hold one of their options.
- `AppState.Valid`: `|userAnswers| == |questions|`. While there are questions, the index names one of them.

Three behaviours of the code worth knowing:

- **Word count.** The code counts `text.split(' ').length`, which is the number of `' '` characters plus one. It is not a count of whitespace-separated words. Doubled spaces add empty pieces. Newlines and tabs do not separate pieces.
- **Restart.** Restart leaves `currentQuestionIndex` and `error` as they were. The session therefore does not return to its exact initial state. Home is shown because there are no questions.
- **Mutual exclusion of text and PDF.** Text and PDF are kept exclusive by control flow: choosing a PDF clears the text, and the text area is only rendered while no PDF is chosen. `HomeState.Valid` states this exclusion, and `Edit` carries it as a precondition.

## Model

| member | source | states |
|---|---|---|
| JsString.TrimEmptyIff | src/Home.jsx:27 | `s.trim()` is the empty (falsy) string exactly when every character of `s` is JavaScript white space |
| JsString.SplitLength | src/Home.jsx:31 | `s.split(sep).length` is the number of occurrences of `sep` in `s` plus one |
| JsString.Split | src/Home.jsx:31 | splitting always gives at least one piece, and no piece contains the separator |
| JsString.JoinSplit | src/Home.jsx:31 | joining the pieces of a split with the separator gives back the original string |
| JsString.SplitJoin | src/Home.jsx:31 | splitting a join of separator-free pieces gives back those pieces |
| Home.QuestionCount | src/Home.jsx:46-50 | a count exists exactly for `courte`, `moyenne` and `longue`, and it is 10, 15 and 20 (10 + 5 × position); any other length gives `undefined` |
| Home.TopicErrorIff | src/Home.jsx:27-29 | a topic error, with its message, is recorded exactly when the topic is empty or all white space |
| Home.TopicErrorIgnoresOtherFields | src/Home.jsx:27-29 | whether there is a topic error depends on the topic alone, whatever the other fields hold |
| Home.TextErrorIff | src/Home.jsx:31-33 | a text error is recorded exactly when there is no PDF, the text is non-empty and it has fewer than 150 pieces (spaces + 1); empty text or a PDF never gives one |
| Home.SpecialtyErrorIff | src/Home.jsx:35-37 | a specialty error is recorded exactly for licence1-3 and master1-2 with a blank specialty; any other level never gives one |
| Home.SpecialtyOnlyAfterTerminale | src/Home.jsx:15 | of the twelve levels offered by the select, exactly the five after `terminale` make the specialty field shown and required |
| Home.HomeState.constructor | src/Home.jsx:4-13 | the initial form is empty topic, text and specialty, level `sixième`, length `courte`, no PDF; there are no errors |
| Home.HomeState.Edit | src/Home.jsx:62-152 | each input's change handler replaces its one field and leaves the rest unchanged; the form stays in a reachable state |
| Home.HomeState.HandleFileChange | src/Home.jsx:17-22 | a PDF sets `pdfFile` and clears `text`, leaving every other field unchanged; no file or a non-PDF leaves the form unchanged |
| Home.HomeState.ValidateForm | src/Home.jsx:24-41 | the stored error map is the reference error map of the form, whose keys are exactly the fields whose rule failed, each with its message; the result is true exactly when the map is empty, that is, exactly when no rule fails |
| Home.HomeState.HandleSubmit | src/Home.jsx:43-57 | `onSubmit` is called exactly when validation passes, with the form plus `numberOfQuestions` from the lookup; in a reachable state the count is always present and a PDF comes without text |
| App.RequestFor | src/App.jsx:20-34 | the PDF path is taken exactly when a file is present, otherwise the text path; topic, level and count are passed on unchanged |
| App.Unanswered | src/App.jsx:38 | the fresh answer array has one slot per question and every slot is unanswered (`null`) |
| App.AppState.View | src/App.jsx:59-89 | Home exactly when there are no questions; Results exactly when there are questions and results are on; otherwise the quiz at question `currentQuestionIndex + 1` of `|questions|` with its recorded answer |
| App.AppState.constructor | src/App.jsx:8-13 | the session starts with no questions, not loading, no error, index 0, no answers and results off, so Home is shown |
| App.AppState.GenerateQuestions | src/App.jsx:15-46 | success installs the questions with index 0, all answers unanswered, results off and no error; failure sets the fixed message and leaves questions, index, answers and results unchanged; loading ends false; the parallel-array invariant holds |
| App.AppState.Answer | src/App.jsx:77-81 | the answers keep their length and differ from the old ones only at the current index, which now holds the chosen option |
| App.AppState.Next | src/App.jsx:82-86 | the index moves up by exactly one when it is below `length - 1` and stays otherwise, so it never passes the last question |
| App.AppState.Submit | src/App.jsx:87 | results are switched on and nothing else changes; with questions present the Results screen is shown |
| App.AppState.Restart | src/App.jsx:65-69 | questions and answers are emptied and results switched off, whatever the prior state; index, error and loading are untouched; Home is shown |

## Left out

- JSX markup, CSS classes, labels and placeholders: these are presentation only.
- React hooks and re-rendering: each handler is one atomic state change. Stale closures over an older render are not modelled.
- The question generator (`generateQuestionsFromText`, `generateQuestionsFromPDF` in `geminiService`): it is a network call to an AI service and is not part of this model. `GenerateQuestions` returns the request and takes the outcome as a parameter. Replies are modelled as lists of questions. Other JavaScript values are not modelled. A `null` or `undefined` reply is stored by `setQuestions` and then makes `questions.length` throw, which leads to the failure path with the bad value already in place. Other non-array values are installed as they are, with `new Array(questions.length)` giving their answer slots: `{}` gives one slot and the string `"abc"` gives three. The exception is a value whose `length` is a number that is not a valid array length, such as `{length: -1}` or `{length: 1.5}`. For such a value `new Array` throws a RangeError, and the failure path is taken with the value already stored.
- The asynchronous wait inside `generateQuestions`: the model does not represent the moment when `loading` is true. It therefore omits the disabled, "Génération en cours..." submit button, and the race in which a reply arrives after a restart.
- `console.error` logging.
- The browser `File` object: it is modelled only by its mime type.
- The Quiz and Results components, including score counting: they are not part of this model.
- Home.QuestionCount: `undefined` is returned for every unknown length. A JavaScript object lookup would instead return an inherited member for names such as `toString`. The select only offers the three lengths, so such names cannot occur.
- Strings are sequences of Unicode scalar values, not UTF-16 code units. `trim` and `split(' ')` only look at characters of the Basic Multilingual Plane, so the results are the same.

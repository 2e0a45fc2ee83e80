# Health Pulse, client logic in Dafny

Health Pulse is a browser app. It collects a health profile in a three-step form
and asks an external AI service for a risk report, which it shows, keeps in a
per-user history and lets the user rate. It also offers a chat with the
assistant "Dr. Whiskers" and a tracker for SMART goals. This project models the
logic that runs in the client around those service calls, and proves what that
logic promises:

- `Types` (`types.ts`) holds the records and enumerations, with the string each
  enumeration member carries. It also holds the JSON values the service replies
  with and the JavaScript numbers the BMI arithmetic produces.
- `GeminiService` (`services/geminiService.ts`) covers several steps:
  - the body-mass index and its category;
  - the rule-chosen pieces of the prompt: the dataset line, the custom-context
    line and the CSV block capped at 5,000 characters;
  - the merge of the service's reply with the locally computed metrics.

  The service itself and `JSON.parse` are parameters.
- `App` (`App.tsx`) holds the analysis state machine, split at the `await` into
  `StartAnalysis` and `CompleteSuccess`/`CompleteFailure`. It also holds the
  feedback flags, sign-in and sign-out, and the history of at most ten reports,
  newest first.
- `GoalTracker` (`components/GoalTracker.tsx`) is the goal list: append, clamped
  progress updates and removal by id.
- `ChatBot` (`components/ChatBot.tsx`) is the append-only transcript, its send
  guard and the fixed fallback and error turns.
- `HealthForm` (`components/HealthForm.tsx`) covers the form:
  - the step counter;
  - the routing of a change event by its input name into the record, with dotted
    names going into `devSettings`;
  - the CSV upload rule and its effect;
  - the buttons under the form.
- `AuthModal` (`components/AuthModal.tsx`) builds the signed-in user record.
- `Strings` holds the JavaScript string operations the components use:
  `startsWith`, `endsWith`, `split(c)[0]` and `trim`.

Components that keep state in React hooks are classes: `App.AppState`,
`GoalTracker.TrackerState`, `ChatBot.ChatState`, `HealthForm.FormState` and
`AuthModal.ModalState`. One method models each handler. The values they compute
are functions, and the lemmas are about those functions.

## Model

| member | source | states |
|---|---|---|
| Types.GenderFromLabel | types.ts:2-6 | the string value of a `Gender` member reads back as that member, and only those strings read back |
| Types.SmokingFromLabel | types.ts:8-12 | the same for `SmokingStatus` |
| Types.AlcoholFromLabel | types.ts:14-18 | the same for `AlcoholConsumption` |
| Types.ExerciseFromLabel | types.ts:20-24 | the same for `ExerciseFrequency` |
| Types.DietFromLabel | types.ts:26-30 | the same for `DietQuality` |
| Types.ModelFromLabel | types.ts:32-37 | the same for `MLModel` |
| Types.DatasetFromLabel | types.ts:39-45 | the same for `MLDataset` |
| Types.EncodeMetrics | types.ts:147-150 | the `metrics` object has exactly the members `bmi` and `bmiCategory`, and reads back as the same metrics |
| GeminiService.Bmi | services/geminiService.ts:10 | for a non-zero height the BMI times the squared height in metres is the weight, and it is positive for a positive weight; a zero height gives +Infinity, -Infinity or NaN by the sign of the weight |
| GeminiService.Categorize | services/geminiService.ts:11-15 | each category holds exactly when JavaScript's `<` puts the BMI in its half-open interval, so every BMI gets exactly one category |
| GeminiService.CategorizeFinite | services/geminiService.ts:11-15 | on finite values: under 18.5 is Underweight, [18.5, 25) Normal, [25, 30) Overweight, 30 and up Obese, each in both directions |
| GeminiService.CategorizeNaN | services/geminiService.ts:10-15 | a NaN BMI (zero weight, zero height) fails every comparison and is reported as Obese |
| GeminiService.CategorizeMonotone | services/geminiService.ts:12-15 | a larger BMI never falls in an earlier category |
| GeminiService.ScenarioNormalWeight | services/geminiService.ts:10-15 | 70 kg at 175 cm is a BMI between 22.8 and 22.9, which is Normal |
| GeminiService.LocalMetrics | services/geminiService.ts:10-15 | the metrics hold the BMI of the profile's weight and height and the name of its category |
| GeminiService.DatasetLine | services/geminiService.ts:17-33 | the dataset line is "Provided Custom CSV" for the custom dataset and the dataset's label otherwise |
| GeminiService.DatasetLineIdentifiesDataset | services/geminiService.ts:33 | two profiles with the same dataset line have the same dataset |
| GeminiService.FamilyHistoryText | services/geminiService.ts:29 | "Yes" exactly when there is a family history, "No" exactly when there is none |
| GeminiService.ContextSection | services/geminiService.ts:34 | the context line is empty exactly when no context was given; otherwise it is the label followed by the context verbatim |
| GeminiService.CsvPayload | services/geminiService.ts:38 | the embedded text is the first min(5000, length) characters (code points) of the upload, and all of it exactly when it has at most 5000 |
| GeminiService.CsvSection | services/geminiService.ts:35-40 | the CSV block is present exactly for the custom dataset with non-empty content, and then it holds the payload followed by the truncation notice, whether or not anything was cut |
| GeminiService.ScenarioLongUpload | services/geminiService.ts:35-40 | an 8,000-character upload embeds exactly its first 5,000 characters, then the notice |
| GeminiService.DatasetInstruction | services/geminiService.ts:43 | the custom dataset asks for analysis of the uploaded data; any other dataset asks for a simulation trained on that dataset's label |
| GeminiService.PromptParts | services/geminiService.ts:19-55 | the template's passages in order, with the dataset line, the context line and the CSV block in their places |
| GeminiService.ConcatContainsPart | services/geminiService.ts:19-55 | every passage of the template occurs in the written-out prompt |
| GeminiService.Prompt | services/geminiService.ts:19-55 | the dataset line, the context line and the CSV block all occur in the prompt |
| GeminiService.ParseReply | services/geminiService.ts:141 | an empty reply text reads as the empty object; any other text is handed to the parser |
| GeminiService.WithMetrics | services/geminiService.ts:143-149 | the merged analysis keeps every member of the reply except `metrics`, which is exactly the encoded local metrics object |
| GeminiService.RiskLevelTakenFromReply | services/geminiService.ts:141-149 | the risk level is whatever the reply carried; nothing checks it |
| GeminiService.AnalyzeHealthRisk | services/geminiService.ts:7-149 | success exactly when the service replied with parseable text; then the analysis is the parsed reply merged with the local metrics, so the metrics are the local ones, the reply's other members are kept, and an empty reply yields an analysis holding only the metrics |
| App.Prepended | App.tsx:66 | the new history has min(10, old length + 1) items: the new one first, then the first min(9, old length) old items in their order |
| App.RecordAllKeepsNewest | App.tsx:59-66 | after any run of successful analyses the history holds the latest reports newest first, followed by the earlier history, cut to ten |
| App.ElevenAnalyses | App.tsx:66 | eleven analyses from an empty history keep exactly the last ten, newest first |
| App.InputsSummary | App.tsx:64 | the summary starts with the age, carries the BMI to one decimal between commas, and ends with the model's name |
| App.AppState.constructor | App.tsx:15-29 | no analysis, no error, not analysing, no user, empty history, feedback cleared and rating 0 |
| App.AppState.StartAnalysis | App.tsx:48-52 | `isAnalyzing` becomes true and the error, the feedback form and the feedback flag are cleared; the request keeps the user signed in at submission |
| App.AppState.CompleteSuccess | App.tsx:54-77 | the result is shown and analysing ends; when a user was signed in at submission, the report is prepended to the current history, otherwise the history is unchanged |
| App.AppState.CompleteFailure | App.tsx:72-77 | the error is the fixed message, analysing ends, and the shown report and the history are unchanged |
| App.AppState.SubmitFeedback | App.tsx:80-82 | feedback is marked given and the form is hidden |
| App.AppState.OpenFeedbackForm | App.tsx:169 | the feedback form is shown |
| App.AppState.RateStar | App.tsx:186 | the rating is the chosen star |
| App.AppState.CancelFeedback | App.tsx:207 | the feedback form is hidden |
| App.AppState.OpenAuthModal | App.tsx:90 | the sign-in dialog is shown |
| App.AppState.CloseAuthModal | App.tsx:283 | the sign-in dialog is hidden |
| App.AppState.Login | App.tsx:282 | the dialog's user becomes current and the dialog closes |
| App.AppState.Logout | App.tsx:91 | no user and an empty history |
| App.AppState.ClearHistory | App.tsx:133 | the history is empty and the user stays |
| App.AppState.ViewItem | App.tsx:133 | the shown report is the item's, and nothing else changes |
| App.ScenarioLogoutWhileAnalyzing | App.tsx:59-91 | signing out while a report is in flight leaves that report in the history of the signed-out app |
| GoalTracker.NewGoal | components/GoalTracker.tsx:12-17 | the new goal carries the id and the draft's fields, with progress 0 and not completed |
| GoalTracker.Clamp | components/GoalTracker.tsx:26 | the result lies in [0, 100], equals the input inside that range, and is the nearer bound outside it |
| GoalTracker.Advanced | components/GoalTracker.tsx:26-27 | progress becomes the clamped sum and the goal is completed exactly at 100; its other fields are kept |
| GoalTracker.ProgressUpdated | components/GoalTracker.tsx:23-31 | same length and order; goals with the id advance and every other goal is unchanged |
| GoalTracker.ProgressUpdatedKeepsValid | components/GoalTracker.tsx:26-27 | progress stays in [0, 100] with `completed` exactly at 100 for every goal |
| GoalTracker.ProgressUpdatedUnknownId | components/GoalTracker.tsx:24-30 | an id no goal has changes nothing |
| GoalTracker.WithoutGoal | components/GoalTracker.tsx:34 | the goals kept are exactly those whose id differs |
| GoalTracker.WithoutGoalAppend | components/GoalTracker.tsx:34 | removal works piece by piece, so the goals kept stay in their order |
| GoalTracker.WithoutGoalIdempotent | components/GoalTracker.tsx:34 | removing twice is removing once |
| GoalTracker.WithoutGoalUnknownId | components/GoalTracker.tsx:34 | an id no goal has removes nothing |
| GoalTracker.WithoutGoalKeepsValid | components/GoalTracker.tsx:34 | removal keeps every goal well formed |
| GoalTracker.TrackerState.constructor | components/GoalTracker.tsx:6-8 | no goals, the add panel closed and an empty draft |
| GoalTracker.TrackerState.AddGoal | components/GoalTracker.tsx:10-21 | without a title nothing changes; otherwise exactly one new goal is appended, the draft is cleared and the panel closes |
| GoalTracker.TrackerState.UpdateProgress | components/GoalTracker.tsx:23-31 | the goals become `ProgressUpdated` of the old goals, and every goal stays well formed |
| GoalTracker.TrackerState.RemoveGoal | components/GoalTracker.tsx:33-35 | the goals become `WithoutGoal` of the old goals, and every goal stays well formed |
| GoalTracker.TrackerState.ToggleAdd | components/GoalTracker.tsx:45 | the add panel flips |
| GoalTracker.TrackerState.EditDraft | components/GoalTracker.tsx:58-68 | the draft is the edited one |
| Strings.Trim | components/ChatBot.tsx:22-24 | the trimmed text is the piece of the input after its leading whitespace, followed only by whitespace, with no whitespace at either end, and it is empty exactly when the input is all whitespace |
| Strings.TrimIdempotent | components/ChatBot.tsx:22-24 | trimming the trimmed text changes nothing |
| Strings.BeforeFirst | components/AuthModal.tsx:21 | the text before the first separator: a prefix without the separator, followed in the input by the separator unless it is all of the input |
| ChatBot.ModelTurn | components/ChatBot.tsx:30-34 | a model turn that is never empty: the reply text if it has any, the fixed apology if not, the fixed error text on failure |
| ChatBot.Accepts | components/ChatBot.tsx:22 | a message is sent exactly when the input is not all whitespace and no reply is pending |
| ChatBot.SendKeepsWellFormed | components/ChatBot.tsx:24-27 | an accepted send from a settled transcript gives a well-formed pending one |
| ChatBot.ReplyKeepsWellFormed | components/ChatBot.tsx:30-35 | a reply to a pending transcript gives a well-formed settled one |
| ChatBot.PendingEndsOnOneUserTurn | components/ChatBot.tsx:22-35 | a reply is pending exactly when the transcript ends on a user turn, and then only one user turn is waiting |
| ChatBot.ChatState.constructor | components/ChatBot.tsx:7-12 | the transcript is the greeting alone, the input is empty, nothing is pending and the chat is closed |
| ChatBot.ChatState.Send | components/ChatBot.tsx:21-27 | when the guard fails nothing changes; otherwise the input is cleared, exactly one user turn with the trimmed text is appended and a reply is pending |
| ChatBot.ChatState.Complete | components/ChatBot.tsx:29-36 | exactly one model turn is appended to the transcript, and nothing is pending |
| ChatBot.ChatState.SetInput | components/ChatBot.tsx:87 | the input is the typed text |
| ChatBot.ChatState.SetOpen | components/ChatBot.tsx:102 | the chat is open or closed as asked |
| HealthForm.InitialFormPrompt | components/HealthForm.tsx:13-31 | the starting profile is of normal weight, on NHANES 2024, and its prompt has no context line and no CSV block |
| HealthForm.TopSet | components/HealthForm.tsx:45-49 | the named top-level field takes the value, every other field and `devSettings` keep theirs, and a value the field cannot hold changes nothing |
| HealthForm.DevSet | components/HealthForm.tsx:37-43 | the named `devSettings` field takes the value and every other one keeps its own |
| HealthForm.TopFieldsDetermineRecord | components/HealthForm.tsx:45-49 | the top-level fields and `devSettings` determine the whole record |
| HealthForm.DevFieldsDetermineSettings | components/HealthForm.tsx:37-43 | the five fields determine `devSettings` |
| HealthForm.Route | components/HealthForm.tsx:35-36 | a name goes to `devSettings` exactly when it starts with `devSettings.`, and then to the dot-free text after that prefix |
| HealthForm.RouteDotted | components/HealthForm.tsx:35-36 | `devSettings.X`, and `devSettings.X.rest`, route to field X |
| HealthForm.DevValue | components/HealthForm.tsx:41 | a dotted name stores the checkbox state for a checkbox and the raw text otherwise; it never stores a number |
| HealthForm.TopValue | components/HealthForm.tsx:47-48 | a top-level name stores the checkbox state for a checkbox, `parseFloat` of the text for a number box and the raw text otherwise, each in both directions |
| HealthForm.HandleChange | components/HealthForm.tsx:33-51 | a dotted name changes only that `devSettings` field and no top-level field; any other name changes only that top-level field and never `devSettings` |
| HealthForm.SelectDataset | components/HealthForm.tsx:35-43 | choosing a dataset in the developer options changes the dataset and nothing else |
| HealthForm.UploadCheckCases | components/HealthForm.tsx:56 | a CSV MIME type alone or a name ending in `.csv` alone lets a file through; a file is rejected exactly when it has neither |
| HealthForm.ScenarioUploadCheck | components/HealthForm.tsx:56 | a `.txt` name of CSV type and a `.csv` name of another type pass; `DATA.CSV` of another type is rejected, as the name test is case-sensitive |
| HealthForm.Loaded | components/HealthForm.tsx:63-71 | after a load the dataset is the custom CSV with the file's text and name; the context and the debug flag are kept |
| HealthForm.UploadReachesPrompt | components/HealthForm.tsx:63-71 | after a load the prompt names the provided CSV, and carries the CSV block exactly when the file has text |
| HealthForm.NextStep | components/HealthForm.tsx:77 | the next step is one more, except at the last step, which stays; the step stays in [1, 3] |
| HealthForm.PrevStep | components/HealthForm.tsx:78 | the previous step is one less, except at the first step, which stays; the step stays in [1, 3] |
| HealthForm.StepsUndo | components/HealthForm.tsx:77-78 | back undoes next below the last step, and next undoes back above the first |
| HealthForm.ControlsAt | components/HealthForm.tsx:281-305 | "Previous" shows after step 1; submit replaces "Continue" exactly at step 3 and is disabled exactly while loading |
| HealthForm.FormState.constructor | components/HealthForm.tsx:11-31 | step 1, developer options hidden, and the starting profile: age 30, height 175, weight 70, Random Forest, NHANES 2024, no custom data |
| HealthForm.FormState.Next | components/HealthForm.tsx:77 | the step advances as `NextStep` says |
| HealthForm.FormState.Back | components/HealthForm.tsx:78 | the step goes back as `PrevStep` says |
| HealthForm.FormState.SelectTab | components/HealthForm.tsx:91-94 | the step is the chosen tab |
| HealthForm.FormState.ToggleDevOptions | components/HealthForm.tsx:216-218 | the developer options flip |
| HealthForm.FormState.Change | components/HealthForm.tsx:33-51 | the record becomes `HandleChange` of the old record |
| HealthForm.FormState.Upload | components/HealthForm.tsx:53-75 | no file changes nothing; a file that is not CSV raises the alert and changes nothing; a CSV file replaces the dataset settings as `Loaded` says |
| HealthForm.FormState.Submit | components/HealthForm.tsx:80-83 | the record as it stands is handed on |
| AuthModal.LocalPart | components/AuthModal.tsx:21 | the text of the email before its first '@', or all of it when it has none |
| AuthModal.BuildUser | components/AuthModal.tsx:18-22 | the id and email as given; the name as typed, or the email's local part when none was typed |
| AuthModal.DefaultNameIsPrefix | components/AuthModal.tsx:21 | a defaulted name is a prefix of the email and holds no '@' |
| AuthModal.DefaultNameOfAddress | components/AuthModal.tsx:21 | for `local@domain` the defaulted name is exactly `local` |
| AuthModal.ModalState.constructor | components/AuthModal.tsx:11-13 | login mode, with no email and no name |
| AuthModal.ModalState.SetEmail | components/AuthModal.tsx:56 | the email is the typed text |
| AuthModal.ModalState.SetName | components/AuthModal.tsx:44 | the name is the typed text |
| AuthModal.ModalState.ToggleMode | components/AuthModal.tsx:69 | the mode flips and nothing typed is cleared |
| AuthModal.ModalState.Submit | components/AuthModal.tsx:15-23 | the user record is `BuildUser` of what was typed, whatever the mode |
| AuthModal.ScenarioNameSurvivesToggle | components/AuthModal.tsx:11-23 | a name typed while signing up is still used after switching back to log in |

## Left out

- The Gemini client calls (services/geminiService.ts:8, 57-139, 152-162) are a foreign library and a network call. The model takes the outcome as a parameter: `service` in `AnalyzeHealthRisk`, and `ChatOutcome` in `ChatBot.ChatState.Complete`.
- The chat call's system instruction and its `history` argument are not modelled. The argument is unused in the source (services/geminiService.ts:152-161).
- The `responseSchema` is sent to the service and nothing checks it locally, so the analysis is any JSON object. Only `metrics` and `riskLevel` are read.
- `JSON.parse` and the object spread of its result are the `parse` parameter of `GeminiService.ParseReply`. It gives None where `JSON.parse` throws, so a reply that parses to a non-object is outside the model.
- Number formatting (the template literal's conversion of the age, and `toFixed(1)`) is the opaque `NumberFormat` parameter.
- `GeminiService.Bmi`: finite values are exact reals; IEEE rounding near the category thresholds is not modelled. There is no -0 height. This costs nothing: the source squares the height in metres, and the square of -0 is +0, so a height of -0 gives the same result as a height of 0.
- `HealthForm.TopValue`: `parseFloat` is a parameter returning a real, so the NaN it gives for an empty or non-numeric number box is not modelled.
- `GeminiService.PromptParts`: the template's layout whitespace is not reproduced. This covers the leading newline, the line indentation, the blank lines around the conditional sections, the trailing indentation and the spaces at the end of two lines (after "analysis." at services/geminiService.ts:20 and "model." at :42). The visible text of the passages and their order are reproduced.
- `GeminiService.CsvPayload`: lengths count Unicode code points, while `slice(0, 5000)` counts UTF-16 code units. Text outside the Basic Multilingual Plane (emoji, for instance) is therefore cut later in the model than in the source, and a 5,000-emoji upload reads as fitting the budget. The source can also cut a surrogate pair in half, which a sequence of code points cannot express.
- `HealthForm.TopSet` and `HealthForm.DevSet` work on the typed record. A value the field's type cannot hold is dropped, although JavaScript would store it; this covers text that is no member's label, a flag or a number for a text field, and a name that is no field. The form's own inputs never produce such values.
- `HealthForm.FormState.Upload` applies the reader's `onload` effect at once. The asynchronous `FileReader` and the browser `alert` are not modelled; the alert is the returned flag.
- `HealthForm.FormState.Submit`: the browser checks nothing at submission. The only `required` inputs (age, height and weight, components/HealthForm.tsx:116-132) are rendered only at step 1, and the submit button is rendered only at step 3, so a number box cleared at step 1 reaches the analysis as NaN. The model hands on the record as it stands, and that NaN is not represented (see the `HealthForm.TopValue` line above).
- `AuthModal.ModalState.Submit`: the browser's validation before submission is not modelled. The browser blocks an empty email and an email that is not a valid address (`type="email" required`, components/AuthModal.tsx:53-59), and an empty name in sign-up mode (`required`, components/AuthModal.tsx:41-47). The model builds a user from any typed email, including the empty one.
- `App.AppState.CompleteSuccess` requires the result to carry metrics. `AnalyzeHealthRisk` always supplies them, and the source reads `result.metrics.bmi`.
- localStorage persistence of the user and the history (App.tsx:32-46) is browser I/O.
- Random ids and `Date.now()` timestamps (App.tsx:61-62, GoalTracker.tsx:13, AuthModal.tsx:19) are method parameters.
- The feedback `console.log`, the `console.error` of a failed analysis (App.tsx:73), the scroll effects, the timers and all rendering beyond the controls under the form are not modelled.
- Interleavings of React state updates are not modelled. Each handler runs to completion, and the two halves of an `await` are separate methods.
- The goal progress is an integer, matching the buttons' steps of -10 and +10 (components/GoalTracker.tsx:107-108).
- Undefined optional strings in `DevSettings` are the empty string. The source only tests them for truthiness.

# MediClarify client logic in Dafny

MediClarify is a browser front-end. A user uploads one medical report, or two to
compare, and an AI service returns a layperson-friendly analysis of it. The user can
then ask follow-up questions in a chat grounded in that analysis. All document
understanding happens in the AI service. This project models the deterministic
client logic around the two AI calls, with each call's outcome taken as a parameter:

- **`Types`** (types.ts): the result records. These are the five-valued indicator
  status, the comparison trend, the health score with its optional fields, chat
  messages and the four screen statuses.
- **`JsBuiltins`**: the JavaScript built-ins the client's decisions depend on.
  `trim` decides whether a message is blank. `toLowerCase` compares badge statuses.
  `substring` shortens chip captions. `Array.prototype.find` does the lookups by
  parameter name.
- **`Projection`** (components/AnalysisDisplay.tsx, its pure part): this covers
  - the split of the indicators into `abnormalItems` and `normalItems`;
  - the value table's join of extracted values to indicators and explanations by
    parameter name, with the `'Unknown'` fallback;
  - `StatusBadge`;
  - the score colour bands;
  - the gauge's clamped arc score, its divisor and its capped tooltip list;
  - the suggested-question chips.
- **`Chat`** (components/AnalysisDisplay.tsx, `handleSendMessage`): the chat panel is
  a class holding the history, the input text and the loading flag. The handler is
  asynchronous, so the model splits it at its `await`:
  - `Send` is the guard plus the user turn;
  - `Settle` adds the model turn or the fixed apology;
  - `HandleSendMessage` runs both halves as one step.

  The object invariant says that turns alternate user/model and that loading means
  a reply is pending.
- **`AppView`** (App.tsx): the page is a class holding the two file slots and their
  previews, the notes, the status, the result and the error message. It has one
  method per handler. The two asynchronous handlers are split at their `await` or
  reader callback: `Submit` / `FinishAnalysis`, and `ChooseFile` / `FileLoaded`.
  The object invariant ties the status to the result and to the error message.
- **`GeminiService`** (services/geminiService.ts): this module covers only the
  failure sources of `analyzeDocument`. A missing key fails before any request. An
  empty reply fails with its own message. A thrown error or a parse error is passed
  on.

## Behaviour worth noting

- Entering ANALYZING clears the error but keeps the previously stored result
  (App.tsx:57-75).
- "Start New Analysis" is offered in every non-IDLE state, including ANALYZING
  (App.tsx:141). Pressing it does not cancel the pending analysis
  (`AppView.ResetDuringAnalysis`).
- Suggestion chips are the first three doctor questions, shown only before the first
  chat turn (components/AnalysisDisplay.tsx:629-643).
- `getScoreColor` (components/AnalysisDisplay.tsx:224-228) is defined but never called.
  The gauge has its own copy of the same thresholds (components/AnalysisDisplay.tsx:46-49),
  and `Projection.Gauge` proves that its band agrees with `Projection.ScoreBand`.

## Model

| member | source | states |
|---|---|---|
| `Types.StatusText` | types.ts:11 | every indicator status has a non-empty JSON text, so the row's fallback to 'Unknown' never replaces it |
| `Types.StatusTextInjective` | types.ts:11 | distinct statuses have distinct texts, so comparing status strings is comparing statuses |
| `JsBuiltins.LeadingWhitespace` | components/AnalysisDisplay.tsx:252 | counts exactly the whitespace prefix that `trim` removes: all of it whitespace, the next character not |
| `JsBuiltins.TrailingWhitespace` | components/AnalysisDisplay.tsx:252 | counts exactly the whitespace suffix that `trim` removes |
| `JsBuiltins.BlankIffAllWhitespace` | components/AnalysisDisplay.tsx:252 | `!messageText.trim()` holds iff every character is whitespace; otherwise the trimmed text starts and ends with a visible character |
| `JsBuiltins.Trim` | components/AnalysisDisplay.tsx:252 | `trim` gives the slice of the text between its whitespace prefix and its whitespace suffix; a non-empty result starts and ends with a visible character |
| `JsBuiltins.ToLower` | components/AnalysisDisplay.tsx:12 | ASCII lower-casing: each upper-case ASCII letter becomes its lower-case partner, other characters are kept, and no upper-case ASCII letter remains; this decides the four badge comparisons exactly as `toLowerCase` does |
| `JsBuiltins.Ellipsize` | components/AnalysisDisplay.tsx:641 | a text of at most n characters (Unicode scalar values) is kept; a longer one becomes its first n characters followed by `...` |
| `JsBuiltins.FindIndex` | components/AnalysisDisplay.tsx:496-497 | the index found is the first whose element matches; no earlier element matches |
| `JsBuiltins.Find` | components/AnalysisDisplay.tsx:496-497 | `find` gives nothing iff no element matches, else a matching element of the list |
| `JsBuiltins.FindIsFirst` | components/AnalysisDisplay.tsx:496-497 | `find` returns precisely the first matching element |
| `Projection.AbnormalItems` | components/AnalysisDisplay.tsx:216-218 | each indicator occurs as often as in the input when its status is neither Normal nor Unknown, and not at all otherwise |
| `Projection.AbnormalItemsKeepOrder` | components/AnalysisDisplay.tsx:216-218 | the abnormal list keeps the input order: it distributes over concatenation |
| `Projection.NormalItems` | components/AnalysisDisplay.tsx:220-222 | a name is listed iff some indicator with that parameter has status Normal; the list is no longer than the input |
| `Projection.NormalItemsKeepOrder` | components/AnalysisDisplay.tsx:220-222 | the normal list keeps the input order: it distributes over concatenation |
| `Projection.PartitionCounts` | components/AnalysisDisplay.tsx:216-222 | abnormal count + normal count + Unknown count = indicator count, so no indicator is in both lists; the normal count is the number of Normal indicators |
| `Projection.StatusBadge` | components/AnalysisDisplay.tsx:11-26 | the raw-text badge appears iff the lower-cased status is none of normal, high, low, slightly abnormal, and then shows the status unchanged |
| `Projection.BadgeIgnoresCase` | components/AnalysisDisplay.tsx:12 | two statuses equal up to letter case get the same fixed badge |
| `Projection.BadgeOfLowerCase` | components/AnalysisDisplay.tsx:12 | a status in any case gets the same fixed badge as its lower-case form |
| `Projection.BadgeLabel` | components/AnalysisDisplay.tsx:14-25 | a raw badge shows its text; the Normal, High and Low labels, read back as a status, give the same badge again; the "Abnormal" label is not one of the four names |
| `Projection.BadgeOfStatus` | components/AnalysisDisplay.tsx:11-26 | Normal, High and Low get their own badges and show their own text; Slightly Abnormal gets the badge labelled "Abnormal"; Unknown falls through to the raw "Unknown" badge |
| `Projection.FindIndicator` | components/AnalysisDisplay.tsx:496 | the lookup finds nothing iff no indicator has the row's parameter, else the first indicator that has |
| `Projection.FindExplanation` | components/AnalysisDisplay.tsx:497 | the lookup finds nothing iff no explanation has the row's parameter, else the text of the first one that has |
| `Projection.RowStatus` | components/AnalysisDisplay.tsx:496 | a row's status is that of the first indicator with the row's parameter, or "Unknown" if none matches |
| `Projection.RowExplanation` | components/AnalysisDisplay.tsx:497 | a row's explanation is the first matching explanation's text, shown only when non-empty; none when nothing matches |
| `Projection.ValueRows` | components/AnalysisDisplay.tsx:495-534 | one row per extracted value, in order, each carrying its own lookups |
| `Projection.RowBadge` | components/AnalysisDisplay.tsx:530 | an unmatched row shows the raw "Unknown" badge; a matched row shows the badge of its first match's status |
| `Projection.ScoreBand` | components/AnalysisDisplay.tsx:224-228 | green iff score ≥ 80, yellow iff 60 ≤ score < 80, red iff score < 60 |
| `Projection.ScoreBandMonotone` | components/AnalysisDisplay.tsx:224-228 | a higher score never gets a worse colour band |
| `Projection.ClampScore` | components/AnalysisDisplay.tsx:43 | the clamped score lies in [0, 100], equals the score inside that range, and is the nearest point of the range otherwise |
| `Projection.ClampKeepsBand` | components/AnalysisDisplay.tsx:43-49 | clamping never moves a score into another colour band |
| `Projection.Gauge` | components/AnalysisDisplay.tsx:36-168 | the gauge colours the score with the same thresholds as `getScoreColor`; its arc score is clamped; its divisor is ≥ 1 and is the total when there are items; the tooltip lists the first ≤ 5 abnormal items plus the overflow count, which add up to all of them |
| `Projection.GaugeOfResult` | components/AnalysisDisplay.tsx:369-374 | the gauge's abnormal and normal counts add up to the indicator count less the Unknown ones |
| `Projection.SuggestionChips` | components/AnalysisDisplay.tsx:629-643 | no chips once the chat has a turn; before that, the first min(3, n) doctor questions, each sending the full question under a caption of at most 53 characters |
| `Chat.ReplyTurn` | components/AnalysisDisplay.tsx:259-266 | the model turn carries the AI's reply, or the fixed apology when the call failed |
| `Chat.ChatPanel.constructor` | components/AnalysisDisplay.tsx:211-213 | a mounted panel has an empty history, an empty input and nothing loading |
| `Chat.ChatPanel.EditInput` | components/AnalysisDisplay.tsx:652 | typing sets the input text and nothing else |
| `Chat.ChatPanel.Send` | components/AnalysisDisplay.tsx:251-257 | a blank message, or one sent while loading, changes nothing; otherwise exactly the user turn is appended, the input is cleared and loading is set; the AI gets the history with that turn |
| `Chat.ChatPanel.Settle` | components/AnalysisDisplay.tsx:259-269 | exactly one model turn (reply or apology) is appended and loading ends; turns keep alternating |
| `Chat.ChatPanel.HandleSendMessage` | components/AnalysisDisplay.tsx:251-270 | a send that passes the guard grows the history by exactly the user turn and then the model turn, clears the input and ends not loading |
| `Chat.ChatPanel.HandleSuggestionClick` | components/AnalysisDisplay.tsx:272-274 | a chip sends its full question through the same guarded handler |
| `Chat.SerializedTurns` | components/AnalysisDisplay.tsx:252 | a question sent while the first is pending is ignored; the final history is [user 1, model 1, user 2, model 2] |
| `GeminiService.AnalyzeDocument` | services/geminiService.ts:141-207 | a missing or empty key fails with the key message; an empty reply fails with "No response from Gemini"; a thrown error fails with its own message; a reply that does not parse fails with the parse error's message; success iff the reply text is non-empty and parses, giving the parsed result |
| `AppView.UploadList` | App.tsx:63-64 | the upload list has one or two files, the primary first, and a second exactly when a comparison file exists |
| `AppView.ErrorText` | App.tsx:73 | the error message shown is never empty: the error's own message, else the fixed fallback |
| `AppView.App.constructor` | App.tsx:9-18 | the page starts IDLE with empty slots, empty notes, no result and no error |
| `AppView.App.ChooseFile` | App.tsx:23-43 | choosing a file sets IDLE and clears the result and the error; no choice changes nothing |
| `AppView.App.FileLoaded` | App.tsx:28-36 | the reader callback fills only the chosen slot and its preview |
| `AppView.App.RemoveFile` | App.tsx:45-55 | only the chosen slot and its preview are cleared; the other slot is unchanged |
| `AppView.App.EditNotes` | App.tsx:242 | editing the notes sets them and nothing else |
| `AppView.App.Submit` | App.tsx:57-64 | with no primary file nothing changes; otherwise ANALYZING, error cleared, previous result kept, and the upload is the file list with the notes |
| `AppView.App.FinishAnalysis` | App.tsx:66-74 | success stores the result and shows SUCCESS; failure shows ERROR with the error text and keeps the old result |
| `AppView.App.HandleSubmit` | App.tsx:57-75 | the whole submit: a no-op without a primary file, else ends in SUCCESS with the result or in ERROR with the message |
| `AppView.App.ResetApp` | App.tsx:77-87 | clears both slots, both previews, the notes and the result, and sets IDLE; the error message is untouched |
| `AppView.App.TryAgain` | App.tsx:282 | returns to IDLE, keeping files, notes, result and message |
| `AppView.App.View` | App.tsx:131-293 | the form shows exactly on IDLE, the spinner on ANALYZING, the error panel on ERROR, the result view on SUCCESS with a result; never two of them at once; the reset button exactly when the form is hidden; submit enabled exactly with a primary file |
| `AppView.ScreenShowsOnePanel` | App.tsx:141-293 | exactly one of form, spinner, error panel and result view is shown; the result view appears exactly on SUCCESS; the reset button appears exactly when the form does not |
| `AppView.SubmitWithoutKey` | services/geminiService.ts:145-148 | submitting without a service key ends on the error screen with the key message, whatever the reply |
| `AppView.ResetDuringAnalysis` | App.tsx:77-87 | a reset while an analysis is pending does not cancel it: the result screen appears over emptied slots |

## Left out

- The Gemini request is not modelled: its prompts, response schema, model name and
  `JSON.parse`. The parse outcome is a parameter of `GeminiService.AnalyzeDocument`.
- `fileToBase64` is not modelled, because it relies on the browser's `FileReader`.
  File contents are not modelled either.
- The body of `chatWithAI` is not part of this model. Its outcome is the `reply`
  parameter of `Chat.ChatPanel.Settle`.
- The SVG gauge geometry is not modelled: circumference, dash arrays and arc
  fractions. It is floating-point presentation.
- Browser effects are not modelled. These are share, print, `mailto`, scrolling the
  chat into view, resetting the file inputs' DOM values, the random reference ID and
  the current date.
- Markup and CSS are not modelled. This includes the comparison panel and table, the
  patient card, the wellness and doctor-question lists, and the tooltip's status
  colours.
- React's batching of state updates and handler closures that read stale state are
  not modelled. Each half of a handler is one atomic step.
- Scores are integers in the model. JavaScript numbers may be fractional or NaN, and
  those cases are not covered.
- Projection.StatusBadge: `toLowerCase` is modelled on ASCII letters only. For the
  four ASCII names compared against, this still decides equality exactly as
  JavaScript does. Outside ASCII, the only character that lower-cases to a single
  ASCII letter is KELVIN SIGN, which gives `k`, and none of the four names contains a
  `k`.
- Projection.SuggestionChips: lengths are counted in characters. JavaScript counts
  UTF-16 code units, so the two differ for characters outside the Basic Multilingual
  Plane.
- JsBuiltins.ToLower: only the ASCII letters are lower-cased. `toLowerCase` also
  lower-cases other letters ('É' becomes 'é'), and for some characters it changes the
  length ('İ' becomes two code units). The model keeps those characters unchanged. This
  does not affect `Projection.StatusBadge`, as the line on that member explains.
- JsBuiltins.Ellipsize: lengths and the cut position are counted in Unicode scalar
  values. JavaScript's `length` and `substring` count UTF-16 code units, so the two
  differ for characters outside the Basic Multilingual Plane.
- GeminiService.AnalyzeDocument: a reply that parses is assumed to match the response
  schema of services/geminiService.ts:24-126, an object with the required fields. The
  source does not check this: it returns `JSON.parse(text) as AnalysisResult` unchanged
  (services/geminiService.ts:202). A reply of `null`, for example, would be stored as a
  null result with status SUCCESS, and then no main panel renders (App.tsx:291). The
  model excludes that state: `AppView.App.Valid` requires a result on SUCCESS, and
  `AppView.ScreenShowsOnePanel` relies on it.

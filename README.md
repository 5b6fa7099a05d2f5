# AI Summarizer and Read Aloud: the popup's logic in Dafny

The popup of this browser extension takes the readable text of the current page and sends it to
Google's Gemini `generateContent` endpoint, which returns a summary. The popup then shows the
summary and reads it aloud with the platform's speech synthesis. Keyboard shortcuts mirror the
buttons: Space starts, pauses and resumes reading; Escape stops it; Tab copies the summary; 1, 2
and 3 choose a summary type and summarise again.

The project models the two parts of `popup.js` that carry logic:

- **The summarisation client** (`getGeminiSummary`), as functions. Module `GeminiClient` caps the
  article text at 20 000 characters and appends `...` when it cuts. It then puts one of four fixed
  templates in front of the text. Finally it reduces the endpoint's reply to a summary or an error
  message. The HTTP exchange is a parameter `server`, a function from the API key and the prompt to
  a reply. Module `Summarise` gives the message `runSummarise` finally writes into the result area.
  Module `JsText` gives JavaScript's `String.prototype.trim`.
- **The reader**, as a class. `Popup.PopupState` holds the result area's text, the summary-type
  selection, the globals `currentUtterance` and `isPaused`, and the engine's
  `speechSynthesis.speaking` flag. It has one method per handler: `stopSpeaking`, `speakText`, the
  utterance's `onend`, the copy helper, the start and end of `runSummarise`, and the `keydown`
  handler with its Space, Escape, Tab and digit branches. Ghost logs record every `speechSynthesis`
  call (`speak`, `pause`, `resume`, `cancel`, and the `speak` of a spoken announcement), every
  clipboard write and every summarisation started. The reader's methods (stop, speak, end, Space,
  Escape) are proved against step functions of module `Speech`, and the lemmas about the reader are
  stated about those step functions. `CopySummary` is proved against `Popup.ClipboardWrites`, and the
  text `SummariseResolved` displays against `Summarise.Complete`. `RunSummarise`, `EngineIdle` and
  the digit keys state their new fields directly.

`speechSynthesis.speaking` is platform state. The model sets it on every `speak`, clears it on
`cancel`, and clears it through `EngineIdle`, which stands for the platform emptying its queue.
`pause` and `resume` leave it as it is. The spoken announcements of `sayFeedback` are `speak` calls
too, so they set the flag. This is why `stopSpeaking` may issue `cancel` while the reader itself is
idle.

The code has no separate pause and resume controls. Space toggles between pausing and resuming
while an utterance exists, and starts reading the result text while none exists.

## Model

| member | source | states |
|---|---|---|
| `JsText.TrimStart` | popup.js:65 | the leading part removed is all white space; what remains is a suffix that starts with a non-white character or is empty |
| `JsText.TrimEnd` | popup.js:65 | the trailing part removed is all white space; what remains is a prefix that ends with a non-white character or is empty |
| `JsText.AmongIsMembership` | popup.js:65 | the recursive test `Among` used for white space holds exactly for the members of the list |
| `JsText.WhiteSpaceMembership` | popup.js:65 | `trim` removes exactly the ECMAScript white-space and line-terminator characters listed in `JsText.WhiteSpace` |
| `JsText.Trim` | popup.js:65 | the trimmed text is empty exactly when every character is white space; otherwise it starts and ends with non-white characters |
| `JsText.TrimIsSlice` | popup.js:65 | the trimmed text is the slice of the input that starts right after its leading run of white space |
| `JsText.TrimTrailing` | popup.js:65 | everything in the input after the trimmed text is white space |
| `JsText.TrimIdempotent` | popup.js:184 | trimming text that was already trimmed changes nothing |
| `GeminiClient.Truncate` | popup.js:82-83 | text of at most 20 000 characters is kept unchanged; longer text becomes exactly its first 20 000 characters followed by `...`; the result never exceeds 20 003 characters |
| `GeminiClient.TruncateIdempotent` | popup.js:82-83 | cutting text that was already capped gives it back unchanged |
| `GeminiClient.KindOf` | popup.js:86-98 | `brief`, `detailed` and `bullets` each select their own template, and every other tag selects the default one |
| `GeminiClient.Template` | popup.js:88-97 | every template ends with a blank line; the brief and detailed ones begin `Provide a `, the bullet-point and default ones begin `Summarise the following article` |
| `GeminiClient.Prompt` | popup.js:85-98 | the prompt is the chosen template followed by the capped text, and its length is bounded by the template's length plus 20 003 |
| `GeminiClient.SplitPrompt` | popup.js:85-98 | whatever the split returns recombines into the prompt: template followed by the remaining text |
| `GeminiClient.TemplatesPrefixFree` | popup.js:88-97 | no template is a prefix of a prompt built from a different template |
| `GeminiClient.PromptRoundTrip` | popup.js:85-98 | splitting a prompt gives back the selected template kind and the capped text |
| `GeminiClient.PromptInjective` | popup.js:85-98 | two equal prompts come from the same template kind and the same capped text |
| `GeminiClient.FirstPartText` | popup.js:118 | a missing reply, missing candidates or an empty candidate list give no text; when every step of the path to the first candidate's first part exists, the result is exactly that part's `text`, and any text returned was found along such a path |
| `GeminiClient.OrElse` | popup.js:114 | JavaScript's `a \|\| b` on an optional string: a non-empty `a` is the result, a missing or empty one gives `b`, and a non-empty fallback makes the result non-empty |
| `GeminiClient.ReplySummary` | popup.js:117-118 | the summary is never empty; it is the first candidate's first part text when that text exists and is non-empty, and otherwise exactly `No summary available.` |
| `GeminiClient.ReplyRoundTrip` | popup.js:118 | a non-empty summary placed in the reply shape is read back unchanged, whatever candidates and parts follow it |
| `GeminiClient.ErrorMessage` | popup.js:112-115 | the error message is never empty; it is the server's `error.message` when present and non-empty, and otherwise `API request failed` |
| `GeminiClient.ErrorRoundTrip` | popup.js:114 | a body `{ error: { message: m } }` with non-empty `m` fails with exactly `m` |
| `GeminiClient.GeminiSummary` | popup.js:81-119 | an ok reply settles with its summary, never empty; a non-ok reply rejects with its error message; a transport rejection rejects with the transport's own message, so an empty rejection message can only come from the transport |
| `Summarise.Complete` | popup.js:19-47 | a missing or empty key shows the key message; then a missing or empty article text shows the extraction message; a summary that is shown and spoken is never empty; any other message starts with `Error: `; with a key and article text, an ok reply shows and speaks `ReplySummary` of its data, a non-ok reply shows `Error: ` and its `ErrorMessage`, and a rejection shows `Error: ` and its message, or `Failed to generate summary.` for an empty one |
| `Summarise.ServerErrorShown` | popup.js:44-45 | a non-ok reply with server message `m` shows `Error: m` |
| `Summarise.GenericFailureOrigin` | popup.js:45 | `Error: Failed to generate summary.` is shown only after a rejection or a non-ok reply whose own message is that phrase |
| `Speech.Announce` | popup.js:148-152 | an announcement issues one `speak` of the message and leaves the reader's two globals as they were |
| `Speech.Stop` | popup.js:124-130 | afterwards there is no utterance, `isPaused` is false and the engine is silent; `cancel` is issued exactly when the engine was speaking or the reader was paused, and nothing else is issued |
| `Speech.StopTwice` | popup.js:124-130 | stopping twice in a row is the same as stopping once: the second call changes nothing and issues nothing |
| `Speech.SpeakText` | popup.js:132-145 | empty text changes nothing; other text first stops, then leaves exactly that utterance, unpaused, with one `speak` as the last call after the stop's `cancel` |
| `Speech.Ended` | popup.js:140-143 | the `onend` handler leaves the reader idle and unpaused |
| `Speech.SpeakThenEnd` | popup.js:132-145 | speaking non-empty text and then reaching its end returns the reader to idle |
| `Speech.TogglePause` | popup.js:173-182 | with an utterance, Space flips `isPaused` and issues `resume` if it was paused and `pause` otherwise, followed by the announcement |
| `Speech.StartReading` | popup.js:183-189 | with no utterance, Space does nothing for empty trimmed text; otherwise it stops, speaks the text and announces it |
| `Speech.SpaceKey` | popup.js:170-190 | Space keeps the utterance and flips the pause when an utterance exists; otherwise it starts reading only when the trimmed result text is non-empty, and it keeps the reader's invariant |
| `Speech.SpaceTwice` | popup.js:170-190 | two Space presses while an utterance exists restore the pause flag |
| `Speech.EscapeKey` | popup.js:192-197 | Escape moves a speaking or paused reader to idle, issuing the stop's calls and the announcement; an idle reader is left unchanged and no `cancel` is issued |
| `Speech.ReadingSession` | popup.js:132-197 | speak, Space, Space, Escape goes through speaking, paused, speaking and idle, and issues exactly `speak`, `pause`, `resume` and `cancel` with their announcements |
| `Popup.DigitSelection` | popup.js:206-222 | exactly Digit1, Digit2 and Digit3 select a summary type, and they select the brief, detailed and bullet-point templates |
| `Popup.Suppressed` | popup.js:171-207 | `preventDefault` is called for Space, Tab and exactly the digit keys that select a summary type |
| `Popup.ClipboardWrites` | popup.js:64-67 | a result that is all white space is not written; otherwise its trimmed, non-empty text is written once |
| `Popup.StartupAnnouncements` | popup.js:154-158 | the popup opens with five non-empty spoken hints and no other call on `speechSynthesis` |
| `Popup.PopupState.constructor` | popup.js:4-5 | the popup opens idle and unpaused, with the five start-up announcements queued |
| `Popup.PopupState.SayFeedback` | popup.js:148-152 | the announcement is logged and the engine is speaking; the reader's globals do not change |
| `Popup.PopupState.StopSpeaking` | popup.js:124-130 | the new reader state and the logged calls are those of `Speech.Stop` |
| `Popup.PopupState.SpeakText` | popup.js:132-145 | the new reader state and the logged calls are those of `Speech.SpeakText` |
| `Popup.PopupState.OnEnd` | popup.js:140-143 | the reader becomes idle and unpaused, as `Speech.Ended` says |
| `Popup.PopupState.EngineIdle` | popup.js:125 | once the platform queue is empty, `speechSynthesis.speaking` reads false |
| `Popup.PopupState.CopySummary` | popup.js:64-67 | the clipboard log grows by `Popup.ClipboardWrites` of the result text: nothing for blank text |
| `Popup.PopupState.ClipboardWritten` | popup.js:67-75 | after a completed write, `Copied.` is announced |
| `Popup.PopupState.RunSummarise` | popup.js:12-17 | starting a summarisation blanks the result area and records the selected summary type |
| `Popup.PopupState.SummariseResolved` | popup.js:19-50 | the result area shows what `Summarise.Complete` displays; a summary is also spoken, leaving the reader speaking; other outcomes leave the reader untouched |
| `Popup.PopupState.TogglePause` | popup.js:173-182 | the new reader state and the logged calls are those of `Speech.TogglePause` |
| `Popup.PopupState.StartReading` | popup.js:183-189 | the new reader state and the logged calls are those of `Speech.StartReading` |
| `Popup.PopupState.SpacePressed` | popup.js:170-190 | the new reader state and the logged calls are those of `Speech.SpaceKey` on the result text |
| `Popup.PopupState.EscapePressed` | popup.js:192-197 | the new reader state and the logged calls are those of `Speech.EscapeKey` |
| `Popup.PopupState.DigitPressed` | popup.js:206-225 | the selection becomes the digit's summary type, which is announced, the result is blanked and a summarisation of that type is started |
| `Popup.PopupState.KeyDown` | popup.js:165-226 | events from INPUT or TEXTAREA change nothing; `preventDefault` is called exactly for Space, Tab and the three digits; each key acts only through its own branch, and other keys change nothing |

## Left out

- The `fetch` call itself: the endpoint URL with the model name and the API key, the JSON encoding of the request body and the `temperature: 0.2` setting (popup.js:100-110). The exchange is the parameter `server`, which maps the key and the prompt to a reply.
- `chrome.storage.sync.get`, `chrome.tabs.query` and `chrome.tabs.sendMessage` (popup.js:19-30). Their outcomes are the inputs of `Summarise.Complete`. A query that finds no active tab is not modelled.
- DOM reads and writes are reduced to the result area's `innerText` and the selection's value. The loading spinner is taken to have no text. The `innerText` getter is taken to return what was written.
- The "Copied!" button label and its 2000 ms `setTimeout` restore (popup.js:68-73).
- Clipboard write failures, which the source leaves unhandled.
- The audio itself, the utterance's voice settings (`lang`, `rate`, `pitch`, `volume`), and the order in which the platform plays queued utterances.
- Overlapping `runSummarise` invocations. Each start and each end is a separate method call, in whatever order they happen; the race between them is not modelled.
- `GeminiClient.Truncate`: lengths count characters. JavaScript counts UTF-16 code units, so for text outside the Basic Multilingual Plane the cut falls at a different place.
- `GeminiClient.ReplySummary`: reply fields are strings or missing. A non-string `text` value, or a `null` entry in `candidates` or `parts`, is not modelled.
- `GeminiClient.ErrorMessage`: an error body that is `null` or not JSON makes the source throw a platform error. That case is folded into `GeminiClient.Rejected`, and its message is not modelled.
- The engine's own paused state. The model tracks only `speechSynthesis.speaking`; `cancel` does not clear the platform's `paused` flag, and `stopSpeaking` resets only the global `isPaused`. After Space (pause), Escape and Space again, the model's `Speaking` mode therefore need not mean audible speech. The logged calls are those of popup.js:124-196.
- `Popup.PopupState.OnEnd`: the `onend` closure resets the reader whichever utterance ended. When the platform fires `end` for a cancelled utterance is a platform matter and is not modelled.

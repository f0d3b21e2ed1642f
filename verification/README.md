# AI playground: verified model of its client state and relay

The AI playground is a browser application. A user picks a skill:
conversation analysis of an audio file, image analysis, or document/URL
summarisation. The user then uploads a file or types a URL and gets the
answer of a generative-AI provider. A small server-side relay forwards each
request to the provider.

This project models, in Dafny, the four pieces of the application that hold
logic:

- **History page** (`history.dfy`, module `History`). It keeps a list of past
  interactions in `localStorage` under `aiPlaygroundHistory`. On mount it loads
  the list and cuts it to at most ten entries. When it had to cut, it writes
  the shorter list back. Stored text that does not parse, or parses to `null`,
  is removed from storage. The page can also clear the list. It labels each
  entry's skill and decides which fields of the stored result to show.
- **Playground page** (`chatbot.dfy`, module `Chatbot`). This is the form's
  state machine over `skill`, `file`, `filePreview`, `urlInput`, `loading`,
  `result` and `error`. It covers the file picker, the URL field, the skill
  selector, Reset, and the submission. A submission validates its input
  (`handleSubmit`), builds the JSON body, picks the relay endpoint for the
  skill, then maps the server's reply to a result or an error message.
- **Relay** (`relay.dfy`, module `Relay`). It checks the configuration,
  builds the provider payload, and makes one authenticated POST. It maps the
  provider's reply to a `{status, body}` pair.
- **Theme switch** (`header.dfy`, module `Header`). The theme starts as the
  stored value or `dark-mode`. It toggles between dark and light, and after
  every change it is written to the page body's class and to storage.

Shared pieces:

- `js.dfy` (module `JsValues`) gives the JavaScript value semantics the code
  relies on:
  - values as JSON produces them, plus `undefined`;
  - truthiness;
  - property lookup, which yields `undefined`;
  - `||`;
  - the `length` property;
  - `String.prototype.trim`, with ECMAScript's WhiteSpace and LineTerminator
    characters.
- `browser_storage.dfy` (module `BrowserStorage`) is `localStorage`: a class
  over a `map<string, string>`. The history page and the header share one
  instance of it.
- `skills.dfy` (module `Skills`) holds the three skill identifiers.

The browser and runtime services become parameters:

- `JSON.parse` is a function `string -> Option<JsValue>`. `None` stands for a
  SyntaxError.
- `JSON.stringify` is a function `JsValue -> string`.
- The relay's `fetch` is a function from the outbound request to the
  provider's reply, and `response.json()` is a `parse` function.
- The page's `fetch` outcome is a `ServerReply` argument: an ok reply with its
  JSON, a non-ok reply with its text, or a thrown error with its message.
- The file reader's data URL is an `Option<string>` argument. `None` means the
  reader failed.
- `URL.createObjectURL`'s result is a `string` argument.

Each asynchronous handler is cut at its `await`:

- `Chatbot.ChatbotPage.StartSubmit` runs from the start of `handleSubmit` to
  the request it sends.
- `Chatbot.ChatbotPage.FinishSubmit` handles the reply and the `finally`
  block.

State that React keeps in `useState` is the fields of a class:
`HistoryPage`, `ChatbotPage` and `ThemeSwitch`. Their methods are proved
against pure functions, and the properties are proved as lemmas about those
functions. Examples: `LoadPlan` for the load effect, `ValidationError`,
`EndpointFor`, `RequestBody` and `ReplyOutcome` for a submission, and
`Toggled` for the theme.

A few facts about the code that the model keeps as written:

- `forward` returns the provider's JSON body unchanged, with status 200. It
  does not look for a fenced JSON block in the provider's text and has no
  `{text}` fallback.
- Nothing in the code writes entries to `aiPlaygroundHistory`. The history
  page only loads, truncates, rewrites and clears it.
- The page posts to `/api/gemini/conversation`, `/api/gemini/image` and
  `/api/gemini/summarize`.
- The relay's body for a non-2xx reply is `{error: text}`, or
  `{error: "Upstream error"}` when the text is empty.
- For a non-ok reply, `handleSubmit` throws an error whose message is the
  response text as received (`"Server error"` when it is empty), and the page
  shows that message. The handlers send the relay's `{error: ...}` object as
  JSON, so that text is the JSON of the object rather than the message inside
  it.

## Model

| member | source | states |
|---|---|---|
| `BrowserStorage.Lookup` | src/pages/History.jsx:16 | `localStorage.getItem(key)` yields the stored text exactly when the key is present, and `null` otherwise |
| `JsValues.Trim` | src/pages/Chatbot.jsx:64 | `urlInput.trim()` drops leading and trailing JavaScript whitespace; the result is empty exactly when every character of the input is whitespace, and otherwise starts and ends with a non-whitespace character |
| `JsValues.TrimIsWhitespaceFramedSlice` | src/pages/Chatbot.jsx:64 | `trim()` removes only the whitespace at the two ends: its result is a contiguous slice of the input with nothing but whitespace before and after it |
| `History.EnforceHistoryLimit` | src/pages/History.jsx:7-12 | an array comes back as its first `min(len, 10)` elements in the same order (a prefix of that length); any non-array value comes back unchanged |
| `History.ShortHistoryUnchanged` | src/pages/History.jsx:8-11 | arrays of at most ten entries and non-array values are returned unchanged |
| `History.EnforceHistoryLimitIdempotent` | src/pages/History.jsx:7-12 | applying the limit twice equals applying it once |
| `History.LoadWithNothingStored` | src/pages/History.jsx:14-17 | with no stored value or an empty string, the load sets no history (it stays `[]`) and does not touch storage |
| `History.LoadTruncatesLongHistory` | src/pages/History.jsx:19-27 | a stored array longer than ten becomes its first ten entries, which are both installed and written back as `JSON.stringify` of the truncated array |
| `History.LoadKeepsShortHistory` | src/pages/History.jsx:19-27 | a stored array of at most ten entries is installed as it is and storage is not rewritten |
| `History.LoadKeepsNonArray` | src/pages/History.jsx:19-27 | a stored value that parses to a non-array other than `null` is installed unchanged and not rewritten |
| `History.LoadSelfHeals` | src/pages/History.jsx:19-31 | stored text that fails to parse, or parses to `null` (whose `.length` throws), is removed from storage and the history becomes `[]` |
| `History.LoadRewritesOnlyLongArrays` | src/pages/History.jsx:20-25 | storage is rewritten exactly when the stored text parses to an array of more than ten entries |
| `History.LoadedHistoryBounded` | src/pages/History.jsx:19-27 | an installed array history never has more than ten entries |
| `History.LoadTwiceIsLoadOnce` | src/pages/History.jsx:14-34 | if `JSON.parse` reads back the truncated array the first load wrote (only a long array is written back), a second load after the first rewrites nothing and installs nothing new |
| `History.ReloadAfterClearLoadsNothing` | src/pages/History.jsx:36-39 | after the key is removed, a later load changes neither the history nor storage |
| `History.HistoryPage.constructor` | src/pages/History.jsx:4 | the page starts with an empty history over the shared storage |
| `History.HistoryPage.Load` | src/pages/History.jsx:14-34 | the mount effect's new history and new storage are those of `LoadPlan` on the stored text: history replaced only when the plan installs one, and the key kept, rewritten or removed as planned |
| `History.HistoryPage.ClearHistory` | src/pages/History.jsx:36-39 | removes the `aiPlaygroundHistory` key, keeps every other key, and empties the in-memory history |
| `History.SkillDisplayName` | src/pages/History.jsx:45-56 | "conversation", "image" and "document-url" map to "Conversation Analysis", "Image Analysis" and "Document/URL Summarization"; any other value is returned unchanged |
| `History.DisplayNamesDistinct` | src/pages/History.jsx:45-56 | the three known skills get three different labels, none equal to a skill identifier |
| `History.RenderResult` | src/pages/History.jsx:58-144 | a falsy result shows "No result available"; an unknown skill shows the whole result as JSON; for each known skill every labelled field is shown exactly when truthy, tags and key points joined when they are arrays, and the plain `text` exactly when it is truthy and the skill's primary fields are all falsy (conversation: transcript, diarization and summary; image: caption and description, not tags; document-url: summary); the blocks shown are a selection of the skill's candidate blocks in display order |
| `History.ConversationBlocks` | src/pages/History.jsx:62-87 | a conversation result shows transcript, diarization and summary each exactly when truthy, and the plain `text` exactly when it is truthy and all three are falsy; nothing else is shown and the blocks keep that order |
| `History.ImageBlocks` | src/pages/History.jsx:89-116 | an image result shows caption, description and tags (joined when an array) each exactly when truthy, and the plain `text` exactly when it is truthy and caption and description are falsy; tags do not hide it; nothing else is shown and the blocks keep that order |
| `History.DocumentBlocks` | src/pages/History.jsx:118-139 | a document result shows the summary and the key points (joined when an array) each exactly when truthy, and the plain `text` exactly when it is truthy and the summary is falsy; nothing else is shown and the blocks keep that order |
| `Chatbot.ValidationError` | src/pages/Chatbot.jsx:54-67 | a submission is rejected exactly when conversation or image has no file, or document-url has no file and a URL that is whitespace only; each case carries its skill's message |
| `Chatbot.EndpointFor` | src/pages/Chatbot.jsx:81-84 | conversation posts to `/api/gemini/conversation`, image to `/api/gemini/image`, document-url to `/api/gemini/summarize`; the endpoint is empty exactly for an unknown skill |
| `Chatbot.RequestBody` | src/pages/Chatbot.jsx:72-79 | the body holds `fileName`, `mimeType` and `data` exactly when a file is selected, with the file's name, type and data URL, and `url` exactly when the URL field is non-empty, untrimmed; no other key |
| `Chatbot.ReplyOutcome` | src/pages/Chatbot.jsx:92-101 | an ok reply yields its JSON as the result; a non-ok reply yields its text, or "Server error" when empty; a thrown error yields its message, or "Unknown error" when empty; an error message is never empty |
| `Chatbot.FallbackText` | src/pages/Chatbot.jsx:219 | `result[primary] \|\| result.text \|\| fallback` is the first truthy of the three and is always truthy |
| `Chatbot.ResultText` | src/pages/Chatbot.jsx:211-246 | the results panel shows text exactly when the result is truthy and the skill known: transcript, caption or summary first, then `text`, then "No transcript/caption/summary returned" |
| `Chatbot.BlankUrlSentWithFile` | src/pages/Chatbot.jsx:64-79 | for document-url with a file, a whitespace-only URL passes validation and is still sent as `url` |
| `Chatbot.ClientFieldsReachProvider` | src/pages/Chatbot.jsx:72-79 | the relay's payload (api/gemini/_forward.js lines 22-26) carries the page's file name, type, data and URL unchanged, `undefined` where the body has none, and an empty `extra` |
| `Chatbot.ChatbotPage.constructor` | src/pages/Chatbot.jsx:13-19 | the page starts on "conversation" with no file, preview, URL, result or error, and not loading |
| `Chatbot.ChatbotPage.HandleFile` | src/pages/Chatbot.jsx:22-39 | always clears result and error; the file becomes the picked one (or none); the preview is the object URL only for an `image/` MIME type, otherwise "" |
| `Chatbot.ChatbotPage.EditUrl` | src/pages/Chatbot.jsx:189 | the URL field takes the typed text and nothing else changes |
| `Chatbot.ChatbotPage.SelectSkill` | src/pages/Chatbot.jsx:152 | the new skill is set and result, error, file, preview and URL are cleared |
| `Chatbot.ChatbotPage.Reset` | src/pages/Chatbot.jsx:201 | result, error, file, preview and URL are cleared and the skill is kept |
| `Chatbot.ChatbotPage.StartSubmit` | src/pages/Chatbot.jsx:50-90 | clears result; a failed validation sets its message, sends nothing and leaves `loading` as it was; a file-reader failure ends with "Unknown error", nothing sent and `loading` false; otherwise `loading` becomes true and exactly one POST with `Content-Type: application/json` goes to `EndpointFor(skill)` with `RequestBody` of the file and URL |
| `Chatbot.ChatbotPage.FinishSubmit` | src/pages/Chatbot.jsx:92-104 | the reply's `ReplyOutcome` sets `result` on success or `error` on failure, leaving the other as it was; `loading` is false afterwards in every case |
| `Relay.Payload` | api/gemini/_forward.js:15-28 | the payload has exactly the keys `taskHint` and `input`, and `input` exactly `prompt`, `fileName`, `mimeType`, `data`, `url` and `extra`; it keeps the task hint; its `input.prompt` is `taskHint.instruction` when truthy and "" otherwise; `fileName`, `mimeType`, `data` and `url` are copied from the request body; `extra` is the body's `extra` when truthy and `{}` otherwise |
| `Relay.MapReply` | api/gemini/_forward.js:40-47 | a non-2xx reply returns its own status with `{error: text}`, or `{error: "Upstream error"}` when the text is empty; a 2xx reply returns 200 with the provider's JSON unchanged; the call rejects exactly on a network failure or a 2xx body that is not JSON |
| `Relay.Forward` | api/gemini/_forward.js:2-48 | at most one upstream call; a call is made exactly when endpoint and key are non-empty and the body is not nullish; missing configuration returns 500 with the configuration message; a configured relay with a `null` or `undefined` body rejects; the call is a POST to the endpoint with exactly the headers `Content-Type: application/json` and `Authorization: Bearer <key>`, carries `Payload`, and the outcome is `MapReply` of its reply |
| `Relay.ForwardStatus` | api/gemini/_forward.js:7-47 | every returned status is 500 for missing configuration, 200 for any 2xx reply, or the provider's own non-2xx status |
| `Relay.ErrorRepliesCarryMessage` | api/gemini/_forward.js:40-43 | every non-200 body returned is an object whose `error` is a non-empty string |
| `Header.InitialTheme` | src/Header.jsx:6-8 | the initial theme is the stored "theme" value, or "dark-mode" when that is missing or empty |
| `Header.Toggled` | src/Header.jsx:15-17 | the toggled theme is always "dark-mode" or "light-mode", and it is "light-mode" exactly when the theme was "dark-mode" |
| `Header.ToggleIcon` | src/Header.jsx:32 | the button shows the sun exactly in "dark-mode" and the moon otherwise |
| `Header.ToggleTwiceRestores` | src/Header.jsx:16 | from either valid theme, two toggles return to the start |
| `Header.ToggledTimesParity` | src/Header.jsx:16 | after any positive number of toggles the theme is valid; from a valid theme an even number of toggles returns to it and an odd number gives the other theme |
| `Header.ThemeSwitch.constructor` | src/Header.jsx:6-13 | mounting takes `InitialTheme` of the stored value, then the body class and the stored "theme" equal it |
| `Header.ThemeSwitch.ApplyTheme` | src/Header.jsx:10-13 | the effect sets `document.body.className` and the stored "theme" to the current theme; no other key changes |
| `Header.ThemeSwitch.ToggleTheme` | src/Header.jsx:10-17 | the theme becomes `Toggled` of the old one, and the body class and the stored "theme" both equal the new theme |

## Left out

- Rendering, styles and routing (JSX, `src/App.jsx`, `src/pages/LandingPage.jsx`) are left out. So are the History page's "Input" panel, its entry count and its `#n` badges (src/pages/History.jsx:178-269).
- `formatDate` is left out. It relies on `Date.toLocaleString`, which depends on the locale.
- Tag and key-point arrays are joined only symbolically (`Joined(items, separator)`). The string conversion of the elements is not modelled. `JSON.stringify(result, null, 2)` for an unknown skill is `PrettyJson(result)`.
- React renders a falsy number on the left of `&&` as text (a field equal to `0` shows "0"). The model treats it like any other falsy field: nothing is shown.
- Numbers are modelled as integers, so `NaN`, `-0` and fractions are not covered. Property lookup sees own properties only, not the prototype chain.
- `fetch`, `FileReader`, `URL.createObjectURL`, `JSON.parse`, `JSON.stringify` and `localStorage` have no model of their own. They appear as parameters or as a map, as listed above.
- `History.HistoryPage.Load`: a `localStorage.setItem` failure (quota exceeded) inside the `try` block is not modelled. It would land in the catch block.
- `Relay.Forward`: the two `console.log` calls are left out. One of them logs the API key (api/gemini/_forward.js:10-11); this is a side effect only.
- `Relay.Forward`: how the skill handlers turn a rejection into a 500 reply is left out. The handlers are api/gemini/conversation.js, image.js and summarize.js. The model stops at `Rejected(failure)`. The handlers' body parsing, their fixed instruction strings and their module format (`require` of a module with an ES default export) are not part of this model.
- `Chatbot.ChatbotPage.StartSubmit` and `FinishSubmit`: changes the user makes while a request is in flight are not modelled, and neither is a second submission. The disabled Run button is the only guard, and it is UI. The model treats the two halves of a submission as consecutive steps.
- The mocked components are not part of this model: src/components/ConversationAnalysis.jsx, ImageAnalysis.jsx and DocumentSummarization.jsx. No route reaches them, and their results are fixed strings behind timers.
- The file sizes in KB and MB are floating-point display only and are left out.

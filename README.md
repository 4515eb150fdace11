# Smile-Hair-AI companion app: a Dafny model of its local logic

The application is a patient companion for a hair-transplant clinic. Its views are a recovery calendar, an AI chat coach, an AI photo "status check" and an AI photo editor. A generative-AI service does all the substantive work. This project models the logic that runs locally around that service:

- **The chat view** (`AiCoachChat`). The class `CoachChat` holds the transcript, the input field and the loading flag. Its four handlers are state-changing methods. Each remote call is a parameter of its handler: a `StreamReply` (the stream was refused, or it delivered chunks and then ended or broke off) or a `Reply<T>` (resolved or rejected). A ghost log `shown` records every transcript passed to `setMessages`. This lets the contracts state the placeholder, every accumulated frame of a stream, and the final replacement.
- **The gateway** (`GeminiService`). This covers:
  - the grounding-source filter of `getWebResponse`;
  - the first-inline-data choice of `editImage`, as a loop proved against a recursive specification;
  - the module-level chat session, which is created lazily and then reused, and whose history each stream request overwrites.
- **The calendar** (`CareCalendar`, `Constants`). Dates are day numbers. A task with day `d` falls `d - 1` days after the operation date and is flagged today when that date is today. The operation date and its single storage entry form a small class.
- **The two photo forms** (`ImageEditor`, `StatusCheck`). Each is a class whose submit handler is split at its first `await`:
  - `BeginSubmit` is the synchronous guard and reset;
  - `FinishSubmit` is the continuation, run with the file and prompt captured at submission.

  The file reader's data URL and the service reply are parameters. A ghost log records the requests made to the service. `Base64Payload` models `split(',')[1]` exactly.
- **JavaScript built-ins** (`JsString`). `trim` uses ECMAScript's white-space set. `split` takes a one-character separator, and it is proved to be the unique inverse of `join`.

JavaScript truthiness is modelled where the code relies on it:
- an empty image string from `editImage` counts as "no image";
- `prompt || default` replaces only the empty prompt;
- a source is kept only when its uri and title are both non-empty.

The code behaves as follows in four places where a reader might expect otherwise:
- The calendar computes only a "today" flag. There is no past/today/upcoming classification.
- An empty, unbroken greeting stream leaves the transcript empty, not holding one model message.
- Neither form's submit handler checks the loading flag. Only the disabled button keeps a second request out.
- Reset is not written to storage, so the stored date survives a reset.

## Model

| member | source | states |
|---|---|---|
| `JsString.TrimStart` | components/AiCoachChat.tsx:49 | the result is a suffix of the input; everything cut off is white space; the result starts with a non-white-space character or is empty |
| `JsString.TrimEnd` | components/AiCoachChat.tsx:49 | the result is a prefix of the input; everything cut off is white space; the result ends with a non-white-space character or is empty |
| `JsString.LeadingBlanks` | components/AiCoachChat.tsx:49 | the count of leading white-space characters: all of them are white space, the next one is not, and `trimStart` keeps what follows them |
| `JsString.Trim` | components/AiCoachChat.tsx:49 | `trim()` returns the slice between the leading and the trailing white space; both ends of a non-empty result are not white space |
| `JsString.TrimEmptyIffBlank` | components/ImageEditor.tsx:40 | `!s.trim()` holds exactly when every character of `s` is white space |
| `JsString.TrimIdempotent` | components/AiCoachChat.tsx:49 | trimming a trimmed string changes nothing |
| `JsString.Split` | components/ImageEditor.tsx:13 | `split(sep)` returns at least one segment; no segment contains the separator; joining the segments with it gives the input back |
| `JsString.SplitPrefix` | components/ImageEditor.tsx:13 | a separator-free prefix is glued onto the first segment |
| `JsString.SplitJoin` | components/ImageEditor.tsx:13 | split undoes join when no segment holds the separator, so the decomposition is unique |
| `JsString.SplitSingleIffAbsent` | components/ImageEditor.tsx:13 | there is exactly one segment iff the separator does not occur |
| `Constants.ScheduleDays` | constants.ts:4-89 | the schedule has 14 entries; the entry at index i is for day i + 1; every day lies in 1..14 |
| `Constants.ScheduleStrictlyIncreasing` | constants.ts:6-85 | the days strictly increase, so they are distinct (they are the calendar's keys) |
| `GeminiService.ToEntries` | services/geminiService.ts:117-120 | the map step builds one `{uri, title}` entry per grounding chunk, in order |
| `GeminiService.KeepTruthy` | services/geminiService.ts:120 | every source kept has a non-empty uri and title; the filter never adds entries |
| `GeminiService.Sources` | services/geminiService.ts:117-120 | every source returned has a non-empty uri and title; missing candidates, metadata or chunks give the empty list |
| `GeminiService.KeepTruthyEmbeds` | services/geminiService.ts:117-120 | the kept sources are an order-preserving selection of the entries: nothing is reordered or duplicated |
| `GeminiService.KeepTruthyComplete` | services/geminiService.ts:120 | every entry with a non-empty uri and title is kept |
| `GeminiService.KeepTruthyAppend` | services/geminiService.ts:117-120 | the filter works entry by entry: filtering a joined list is filtering its parts and joining the results |
| `GeminiService.KeepTruthyPrefix` | services/geminiService.ts:117-120 | each further entry extends the result by exactly its own source when it is kept and by nothing otherwise, so duplicates are all kept, in place |
| `GeminiService.SourcesFromChunks` | services/geminiService.ts:117-122 | a web answer's sources embed in order in its grounding chunks; every well-formed chunk is among them; chunk by chunk, each adds exactly its own source when well-formed and nothing otherwise |
| `GeminiService.SourceFilterExample` | services/geminiService.ts:120 | of `{a,""}`, `{"",b}` and `{c,d}` only `{c,d}` survives |
| `GeminiService.DuplicateChunksKept` | services/geminiService.ts:120 | two identical well-formed entries give two identical sources |
| `GeminiService.GetWebResponse` | services/geminiService.ts:117-122 | the answer's text is the response text and its sources are the filtered sources: all with a non-empty uri and title, in order of the grounding chunks, every well-formed chunk carried, and none without chunks |
| `GeminiService.FirstInlineDataIsFirst` | services/geminiService.ts:88-94 | the chosen data is that of the first part with inline data, and later parts are ignored; with no such part the result is null |
| `GeminiService.EditImage` | services/geminiService.ts:88-94 | the loop with early return yields exactly `FirstInlineData` of the first candidate's parts; missing candidates, content or parts count as no parts |
| `GeminiService.ChatSession.constructor` | services/geminiService.ts:17-27 | a new session starts with an empty history |
| `GeminiService.Gateway.constructor` | services/geminiService.ts:13 | no session exists at module load |
| `GeminiService.Gateway.GetChatSession` | services/geminiService.ts:15-30 | a fresh session is created only while `chat` is null; afterwards the same session is returned every time |
| `GeminiService.Gateway.GetChatResponseStream` | services/geminiService.ts:32-36 | the session's history becomes exactly the given history, the new message is sent on it and logged with that history, and an existing session is reused |
| `AiCoachChat.ConcatSplit` | components/AiCoachChat.tsx:63-65 | the text accumulated after all chunks is the text after the first i chunks followed by the remaining chunks, in arrival order |
| `AiCoachChat.ConcatMonotone` | components/AiCoachChat.tsx:63-65 | the shown answer only grows: the text after i chunks is a prefix of the text after j >= i chunks |
| `AiCoachChat.FrameAt` | components/AiCoachChat.tsx:63-66 | after k + 1 chunks the transcript is the base followed by one model message holding the first k + 1 chunk texts concatenated |
| `AiCoachChat.StreamExample` | components/AiCoachChat.tsx:63-66 | the chunks "Mer" and "haba" show "Mer" and then "Merhaba" |
| `AiCoachChat.CoachChat.constructor` | components/AiCoachChat.tsx:10-12 | the transcript and input are empty and nothing is loading |
| `AiCoachChat.CoachChat.SetInput` | components/AiCoachChat.tsx:160 | typing sets the input and nothing else |
| `AiCoachChat.CoachChat.StartTurn` | components/AiCoachChat.tsx:48-56 | a blank trimmed input or a request in flight changes nothing; otherwise one user message with the trimmed input is appended, earlier messages are kept, the input is cleared and loading is set (the same start opens lines 75-83 and 97-105) |
| `AiCoachChat.CoachChat.ReadStream` | components/AiCoachChat.tsx:60-66 | each chunk replaces the last message with the base plus the running concatenation; the shown frames are exactly `Frames` |
| `AiCoachChat.CoachChat.HandleInitialMessage` | components/AiCoachChat.tsx:23-39 | "Merhaba" is sent with an empty history; the transcript is cleared, then each frame holds one model message with the text so far; the end state is that message, the greeting apology on refusal or break-off, or empty for an empty stream; loading is off |
| `AiCoachChat.CoachChat.FinishSend` | components/AiCoachChat.tsx:58-72 | the question is sent with the transcript from before the user message as its history; the placeholder is an empty model message; then come the accumulated frames; the end state is the base plus the full answer, or plus the fixed apology; loading is off |
| `AiCoachChat.CoachChat.HandleSend` | components/AiCoachChat.tsx:48-73 | the guard changes nothing, including the gateway; otherwise the transcript ends as the prior messages plus the user message plus the answer or apology (length prior + 2), which is the transcript `AfterTurns` gives for that one turn, with every intermediate frame stated |
| `AiCoachChat.CoachChat.HandleComplexQuery` | components/AiCoachChat.tsx:75-95 | the guard changes nothing; otherwise the user message is shown, then the "thinking" placeholder, then the answer or the fixed apology; loading is off |
| `AiCoachChat.CoachChat.HandleWebSearch` | components/AiCoachChat.tsx:97-117 | the guard changes nothing; otherwise the user message is shown, then the "searching" placeholder, then the answer carrying its filtered sources, or the fixed apology; loading is off |
| `AiCoachChat.StreamResult` | components/AiCoachChat.tsx:62-70 | a turn ends in one model message without sources: the concatenated chunks when the stream completes, the apology when it is refused or breaks off |
| `AiCoachChat.AfterOneTurn` | components/AiCoachChat.tsx:52-70 | one turn appends its user message and its final model message |
| `AiCoachChat.AfterTurnsSnoc` | components/AiCoachChat.tsx:52-70 | one more completed turn appends exactly its user message and answer to what the earlier turns left |
| `AiCoachChat.TurnsAlternate` | components/AiCoachChat.tsx:52-69 | N completed turns add exactly 2N messages and keep earlier ones; after a greeting the roles alternate user, model |
| `CareCalendar.Project` | components/CareCalendar.tsx:56-59 | one view per task in schedule order; each view's date is the operation date plus day - 1, and it is flagged today iff that date is today |
| `CareCalendar.ProjectedDates` | components/CareCalendar.tsx:57-59 | a task keeps its entry; it falls day - 1 days after the operation date, so the day-1 task falls on it; it is today iff its date is today |
| `CareCalendar.AtMostOneToday` | components/CareCalendar.tsx:56-59 | with strictly increasing days the projected dates strictly increase in order, so at most one task is flagged today |
| `CareCalendar.CareScheduleToday` | components/CareCalendar.tsx:56-59 | on the real schedule task i falls i days after the operation date; at most one task is today; one is today exactly when today is within the 14 days starting on the operation date |
| `CareCalendar.Calendar.constructor` | components/CareCalendar.tsx:5-14 | the initial date is the stored one if present, else null; the first storage effect writes back the same value |
| `CareCalendar.Calendar.Persist` | components/CareCalendar.tsx:10-14 | storage is written only when a date is chosen |
| `CareCalendar.Calendar.HandleDateChange` | components/CareCalendar.tsx:16-20 | an empty value leaves the date and storage unchanged; a value becomes the date and is stored |
| `CareCalendar.Calendar.Reset` | components/CareCalendar.tsx:52 | the date becomes null and the stored date stays as it was |
| `CareCalendar.Calendar.Remount` | components/CareCalendar.tsx:5-8 | a reload restores the stored date; while the storage effect has caught up, that is the date chosen before the reload |
| `CareCalendar.Calendar.Schedule` | components/CareCalendar.tsx:29-59 | no task is listed before a date is chosen; afterwards all 14 are, in schedule order, task `i` dated `i` days after the operation date and flagged today exactly when that date is today; the list is the `Project` of the date, so the projection lemmas apply to it |
| `ImageEditor.Base64Payload` | components/ImageEditor.tsx:13 | the payload is absent exactly when the data URL has no comma; otherwise it is a comma-free segment |
| `ImageEditor.PayloadAfterHeader` | components/ImageEditor.tsx:13 | for a data URL `header,body` (possibly followed by a further comma and more), the payload is `body` |
| `ImageEditor.Editor.constructor` | components/ImageEditor.tsx:21-26 | no file, preview, result or error; the prompt is empty; nothing is loading |
| `ImageEditor.Editor.SetPrompt` | components/ImageEditor.tsx:106 | typing sets the prompt and nothing else |
| `ImageEditor.Editor.SubmitDisabled` | components/ImageEditor.tsx:115 | disabled exactly when loading, when no file is chosen, or when the prompt is white space only |
| `ImageEditor.Editor.HandleFileChange` | components/ImageEditor.tsx:28-37 | an empty selection changes nothing; otherwise the file is set, the result and error are cleared and the preview is replaced |
| `ImageEditor.Editor.BeginSubmit` | components/ImageEditor.tsx:40-47 | without a file or with a blank prompt, the validation error is set and nothing else changes; otherwise loading is set, the error is "" and the result is null |
| `ImageEditor.Editor.FinishSubmit` | components/ImageEditor.tsx:49-68 | one request is made with the file's type, the payload and the untrimmed prompt; a non-empty image becomes a PNG data URL; an absent or empty one sets the "could not edit" error; a failure sets the generic error; loading is off |
| `ImageEditor.Editor.HandleSubmit` | components/ImageEditor.tsx:39-69 | past validation, it ends with loading off and exactly one of edited image and error set; a non-empty first inline image is always shown as its PNG data URL with no error, and an image is shown only then; an enabled button always passes validation and, once the file is read, sends exactly one request |
| `StatusCheck.PromptToSend` | components/StatusCheck.tsx:55 | the prompt sent is never empty; a non-empty prompt is sent untrimmed; the empty prompt becomes the default |
| `StatusCheck.Check.constructor` | components/StatusCheck.tsx:20-25 | no file, preview, result or error; the prompt is empty; nothing is loading |
| `StatusCheck.Check.SetPrompt` | components/StatusCheck.tsx:102 | typing sets the prompt and nothing else |
| `StatusCheck.Check.SubmitDisabled` | components/StatusCheck.tsx:110 | enabled exactly when not loading and a file is chosen; `HandleSubmit` ties this to the handler |
| `StatusCheck.Check.HandleFileChange` | components/StatusCheck.tsx:27-36 | an empty selection changes nothing; otherwise the file and preview are set and the result and error are cleared |
| `StatusCheck.Check.BeginSubmit` | components/StatusCheck.tsx:39-46 | without a file, the "choose a photo" error is set and no request is made; otherwise loading is set and the error and result are "" |
| `StatusCheck.Check.FinishSubmit` | components/StatusCheck.tsx:48-63 | one request is made with the file's type, the payload and the prompt to send; success sets the result and leaves the error; failure sets the fixed error and leaves the result; loading is off |
| `StatusCheck.Check.HandleSubmit` | components/StatusCheck.tsx:38-64 | with a file, it ends with loading off and either the answer with error "", or the fixed error with result ""; an enabled button always gets past the guard and, once the file is read, sends exactly one request; without a file nothing is sent |

## Left out

- Gemini SDK calls (`ai.chats.create`, `sendMessageStream`, `generateContent`) are foreign code. Their outcomes are handler parameters. `chats.create` is taken to succeed.
- The API-key check at module load is environment plumbing. The system instructions and request prompt texts are opaque strings.
- `chunk.text` and `response.text` are taken to be strings. The SDK may yield `undefined`, and JavaScript would then concatenate the text "undefined".
- `FileReader`, `URL.createObjectURL`, `scrollIntoView` and `console.error` are browser I/O. The data URL and the preview URL are parameters. The log lines are dropped.
- `localStorage` is one optional field. The ISO-string round trip of the stored date is not modelled, and neither is an empty stored string (which the code treats as absent).
- JavaScript `Date` semantics are not modelled: UTC parsing of the date input, local-midnight normalisation of today, and month roll-over in `setDate`. Dates are integer day numbers.
- React scheduling is not modelled: batched `setState`, stale closures, and interleaving at `await` points. Each chat handler runs atomically for a given outcome. The single-in-flight rule is the `isLoading` guard of `StartTurn`. The form handlers are split only at their first `await`.
- `sendMessageStream`'s own effect on the session is not modelled. The SDK appends each exchange to the session's history, but the next request overwrites that history before sending. Each call to it is logged with the history it was made with, and the chat handlers' contracts speak of that log.
- The mount effect that calls `handleInitialMessage` once (components/AiCoachChat.tsx:41-46) is not modelled. It is a one-line trigger of a modelled handler.
- All JSX, styling and animation are left out. So are the tab switch in App.tsx and Navbar.tsx, the `Tab` enum, and the icon components: they are UI only.
- `GeminiService.EditImage`: an absent `data` in the first inline part and a `null` result are both `None`. The form treats both as "no image" anyway.

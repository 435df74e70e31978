# XingHuoChat front-end core, modelled in Dafny

XingHuoChat is a Vue front-end that talks to iFlytek's Spark chat models over a
WebSocket, and shows the grounding boxes that Qwen-VL returns.

This project models the two parts of it that carry logic of their own.

- **The Spark chat session** (`src/network/SparkAPI.ts`, module `SparkApi` in `spark_api.dfy`).
  - Choice of model domain from the endpoint path, where an explicit domain wins.
  - Normalisation of the conversation: the last message must be the user's, and at most 20 messages are kept.
  - The 4096 cap on `max_tokens` for domain `general`.
  - Removal of `system` messages by `forEach` and `splice` on the same array.
  - The text that is signed, and the signed URL.
  - The `TTSRecorder` object: its `result`/`status` fields, the `onopen`, `onmessage`, `onerror` and `onclose` handlers, and the `onMessage`/`onFinish` callbacks.
- **The Qwen-VL helpers** (`src/tools/QwenVisual.ts`, module `QwenVisual` in `qwen_visual.dfy`).
  - `getMatches`: the global regular expression `<ref>\s*(.*?)\s*</ref><box>\s*\((\d+),(\d+)\),\((\d+),(\d+)\)\s*</box>`, run by repeated `exec`.
  - `testMain`.
  - `createMessageContent`, which builds an OpenAI-style content list of image URLs followed by the query text.

Two more modules hold shared definitions.

- `wrappers.dfy` (`Wrappers`) holds `Option` and `Result`.
- `text.dfy` (`Text`) holds the JavaScript character classes `\s`, `\d` and the line terminators excluded by `.`, plus substring occurrence.

## How the model is organised

### The matcher (`getMatches`)

The regular expression is modelled exactly, including its backtracking choices.

- `MatchAt(s, i)` is the match an anchored attempt finds at index `i`.
- `MatchTable(s)` holds that attempt for every index.
- `Exec(t, from)` is one `exec` call. It returns the leftmost match at or after `lastIndex`, and the caller moves `lastIndex` to the match's end.
- The `while` loop of `getMatches` is the method `GetMatches`. It is proved equal to `Boxes(Matches(s))`.
- Two lemmas describe what the loop returns:
  - `ScanOrdered`: matches come in order and do not overlap.
  - `ScanComplete`: no match is missed except inside an earlier one.

The lazy name group `(.*?)` takes the shortest run of non-line-terminator characters after which the rest of the pattern matches.

- `NameSearch` models that search.
- `NameSearchShortest` proves that no shorter name works.

Rendering a box (`Render`) and laying boxes out between gaps (`Layout`) undo the matcher in one direction only. `MatchesLayout` proves that `getMatches` reads back exactly the boxes that were laid out, provided every name is a `PlainName` and every gap is free of `<`. The other direction, that every input is some layout, is not claimed: `MatchTokensSpelled` and `MatchAtSpelled` state instead how the text of each match is spelled out.

### The session (`TTSRecorder`)

`TTSRecorder` is a class whose methods update its fields.

- Each handler's effect is stated against `Step`, a function on the value `Session`.
- `Run` folds `Step` over a sequence of socket events.
- The lemmas about `Step` and `Run` state what the handlers promise.

System stripping has two parts:

- a loop method, `StripSystemMessages`, that does what `forEach` does while `splice` shrinks the array;
- a recursive function, `StripSystem`, that says what the loop leaves.

## Model

| member | source | states |
|---|---|---|
| `SparkApi.GetDomain` | src/network/SparkAPI.ts:111-124 | `/v1.1/chat`, `/v2.1/chat` and `/v3.1/chat` map to `general`, `generalv2` and `generalv3`, each in both directions. Every other path, `/v3.5/chat` included, gives `generalv3.5`. |
| `SparkApi.SelectDomain` | src/network/SparkAPI.ts:206 | A non-empty explicit domain is used as given. A missing or empty one falls back to the URL's domain, which is one of the four known ones. |
| `SparkApi.Splice` | src/network/SparkAPI.ts:137 | Removing `deleteCount` elements at `start` keeps the elements before `start` and shifts the ones after it down. |
| `SparkApi.GenerateMessages` | src/network/SparkAPI.ts:126-141 | The clone-check-splice method returns exactly the specified history: an error for an empty list or a non-user last message, otherwise the last `min(n, 20)` messages. |
| `SparkApi.KeptHistoryLast` | src/network/SparkAPI.ts:130-133 | Normalisation fails if and only if the list is empty or its last role is not `user`. On success the kept list ends with that same user message. |
| `SparkApi.KeptHistorySuffix` | src/network/SparkAPI.ts:135-140 | The kept list is the suffix of length `min(n, 20)`, in original order, and the whole input when n ≤ 20. |
| `SparkApi.CappedParams` | src/network/SparkAPI.ts:166-170 | For `general` with a present, non-zero `max_tokens`, the value sent is `min(max_tokens, 4096)`. Otherwise it is unchanged. Temperature and `top_k` are copied as they are. A missing parameter object spreads to no fields. |
| `SparkApi.CappedParamsBound` | src/network/SparkAPI.ts:168-169 | For `general`, any `max_tokens` that is sent is at most 4096. |
| `SparkApi.StripSystemMessages` | src/network/SparkAPI.ts:174-180 | The `forEach`/`splice` loop leaves exactly `StripSystem` of its input. The number of visits is fixed at the start, and indices past the shrunken end are skipped. |
| `SparkApi.StripSystemSubsequence` | src/network/SparkAPI.ts:174-180 | The stripped list is a subsequence of the input. Its non-system messages are those of the input, in the same order, so only system messages are removed. |
| `SparkApi.StripSystemKeepsLast` | src/network/SparkAPI.ts:174-180 | A final non-system message, such as the user's last message, always survives stripping as the last element. |
| `SparkApi.StripSystemSeparated` | src/network/SparkAPI.ts:174-180 | When no two system messages are adjacent, stripping removes every one of them. |
| `SparkApi.StripSystemSkipsNext` | src/network/SparkAPI.ts:174-180 | A message directly after a removed system message is kept, whatever its role, because it slides into the index just visited. The messages before it are kept, and stripping resumes after it. |
| `SparkApi.StripSystemAdjacent` | src/network/SparkAPI.ts:175-178 | An example: for a system message, a second system message and a user message, only the first is removed. |
| `SparkApi.StripSystemShorter` | src/network/SparkAPI.ts:174-180 | Stripping never lengthens the list. |
| `SparkApi.RequestTextLast` | src/network/SparkAPI.ts:172-180 | Sending fails if and only if the last message is missing or not the user's, so the check comes before truncation and stripping. The text sent has at most 20 messages and ends with that user message. For `generalv3.5` it is the kept history, unstripped. |
| `SparkApi.RequestTextSubsequence` | src/network/SparkAPI.ts:172-191 | The message text of a sent request is a subsequence of the caller's conversation. |
| `SparkApi.TargetUrlHostIndependent` | src/network/SparkAPI.ts:54-82 | About `SparkApi.TargetUrl`, the model of `generateWebsocketUrl`. The URL begins with `wss://` plus the target host and path. Everything after them is identical for two targets with the same path, because the signature and the `host` query value use the page host, not the target host. |
| `SparkApi.SigningStringLines` | src/network/SparkAPI.ts:63 | The signed text is the three lines `host: <page host>`, `date: <date>` and `GET <path> HTTP/1.1`, with line breaks at exactly two places. |
| `SparkApi.StepInbound` | src/network/SparkAPI.ts:143-162 | An error frame (`code != 0`) sets `errorTTS` and changes nothing else. A successful frame appends its content, so the old reply is a prefix of the new one. It also hands exactly that fragment to `onMessage` when it is set. A final frame (`status == 2`) also requests a close and sets `init`. Any other successful frame leaves the status alone. |
| `SparkApi.RunResult` | src/network/SparkAPI.ts:159-160 | After any sequence of events, the reply is the old reply followed by the contents of the successful frames, in arrival order. |
| `SparkApi.RunDelivered` | src/network/SparkAPI.ts:161 | After any sequence of events, `onMessage` has received exactly those fragments in order when it is set, and nothing otherwise. |
| `SparkApi.RunKeepsCallbacks` | src/network/SparkAPI.ts:98-99 | The handlers never set or clear `onMessage` or `onFinish`. |
| `SparkApi.CloseFinishes` | src/network/SparkAPI.ts:218-220 | On close, `onFinish` receives the reply accumulated so far, and the reply and the status stay as they are. |
| `SparkApi.ErrorThenFinal` | src/network/SparkAPI.ts:147-156 | `errorTTS` is not a final state: a later final frame sets the status back to `init`. |
| `SparkApi.TTSRecorder.constructor` | src/network/SparkAPI.ts:95-109 | Keys are stored. The user id is the given one unless it is missing or empty, otherwise a fresh id. The reply starts empty with status `init`, and the placeholder socket is `wss://baidu.com`. |
| `SparkApi.TTSRecorder.SetCallbacks` | src/network/SparkAPI.ts:98-99 | Assigning `onMessage` and `onFinish` changes only whether they are set. |
| `SparkApi.TTSRecorder.ConnectWebSocket` | src/network/SparkAPI.ts:197-203 | The status becomes `ttsing`, and the new socket's URL is the signed target URL. The handlers keep the call's arguments. The reply and the callback logs are not reset. |
| `SparkApi.TTSRecorder.OnOpen` | src/network/SparkAPI.ts:204-207 | Sends the request built for the arguments remembered at `connectWebSocket`, under `SelectDomain`, or nothing when normalisation throws. The session state is unchanged. |
| `SparkApi.TTSRecorder.WebSocketSend` | src/network/SparkAPI.ts:164-195 | Appends exactly `BuildRequest(...)` to the sent frames on success, and nothing on failure. The request carries the capped parameters, the normalised text and `ChatID` or a fresh id. |
| `SparkApi.TTSRecorder.OnMessagePostprocess` | src/network/SparkAPI.ts:143-162 | The new session state is `Step` of the old state and the frame. The socket, the connection and the sent frames are unchanged. |
| `SparkApi.TTSRecorder.OnError` | src/network/SparkAPI.ts:213-216 | The new session state is `Step(old, SocketError)`: status `errorTTS`, with nothing else changed. |
| `SparkApi.TTSRecorder.OnClose` | src/network/SparkAPI.ts:218-220 | The new session state is `Step(old, SocketClose)`: `onFinish`, when set, receives the current reply. |
| `SparkApi.StreamedReply` | src/network/SparkAPI.ts:143-162 | For two successful frames, the second final, one request is sent. `onMessage` receives the two fragments, `onFinish` receives their concatenation, and the status ends at `init`. |
| `SparkApi.RejectedConversation` | src/network/SparkAPI.ts:130-133 | A conversation ending with an assistant message sends nothing. An error frame then gives status `errorTTS`, and `onFinish` receives the empty reply. |
| `SparkApi.GeneralRequest` | src/network/SparkAPI.ts:166-191 | On the v1.1 endpoint: domain `general`, `max_tokens` 8192 capped to 4096, the system prompt stripped, and an empty `ChatID` replaced by a fresh id. |
| `QwenVisual.SpaceRunEnd` | src/tools/QwenVisual.ts:14 | `\s*` consumes the longest run of JavaScript whitespace. |
| `QwenVisual.DigitsEnd` | src/tools/QwenVisual.ts:14 | `\d+` takes the longest non-empty run of ASCII digits, and fails exactly when no digit is at the position. |
| `QwenVisual.Expect` | src/tools/QwenVisual.ts:14 | A literal part of the pattern matches if and only if it occurs at the position, and matching moves past it. |
| `QwenVisual.MatchTokens` | src/tools/QwenVisual.ts:14 | A pattern match ends within the input, with one non-empty digit group per `(\d+)`, and ends on the pattern's last literal. |
| `QwenVisual.MatchTokensLastLit` | src/tools/QwenVisual.ts:14 | When the pattern ends with a literal, that literal starts at or after the position where matching began. |
| `QwenVisual.MatchTokensSpelled` | src/tools/QwenVisual.ts:14 | The matched text is exactly the tokens spelled out: each literal as written, each `(\d+)` as its captured group, and each `\s*` as a run made only of whitespace. |
| `QwenVisual.MatchTokensRender` | src/tools/QwenVisual.ts:14 | Where separated pattern tokens are spelled out with non-empty digit groups, matching them consumes exactly that text and captures exactly those groups. |
| `QwenVisual.TailTextTokens` | src/tools/QwenVisual.ts:14 | The written tail `</ref><box>(x1,y1),(x2,y2)</box>` is the tail of the pattern spelled out with the box's four decimal groups. |
| `QwenVisual.TailFrom` | src/tools/QwenVisual.ts:14 | The part after the name ends with `</box>` and captures four non-empty digit groups. |
| `QwenVisual.TailFromAfter` | src/tools/QwenVisual.ts:14 | The closing `</box>` starts at or after the place where the part after the name begins. |
| `QwenVisual.TailFromSpelled` | src/tools/QwenVisual.ts:14 | The part after the name is `\s*`, `</ref><box>`, `\s*`, `(g0,g1),(g2,g3)`, `\s*` and `</box>`, with each run all whitespace and `g0`…`g3` the captured groups. |
| `QwenVisual.NameSearch` | src/tools/QwenVisual.ts:14 | The lazy `(.*?)` with the rest of the pattern: when it succeeds, the name ends at or after where it began, and the rest ends with `</box>` within the input and captures four non-empty digit groups. |
| `QwenVisual.NameSearchShortest` | src/tools/QwenVisual.ts:14 | The lazy `(.*?)` stops at the first place where the rest of the pattern matches. Every earlier character is not a line terminator, and the rest does not match there. |
| `QwenVisual.MatchAt` | src/tools/QwenVisual.ts:14 | A match found at `i` starts with `<ref>` at `i`, ends with `</box>`, and has four digit groups. |
| `QwenVisual.MatchAtClosesAfterRef` | src/tools/QwenVisual.ts:14 | In a match found at `i`, the closing `</box>` starts at `i + 5` or later, after the opening `<ref>`. |
| `QwenVisual.MatchAtSpelled` | src/tools/QwenVisual.ts:14 | The text of a match at `i` is `<ref>`, whitespace, the name, whitespace, `</ref><box>`, whitespace, `(g0,g1),(g2,g3)`, whitespace and `</box>`, where each whitespace run is all whitespace and `g0`…`g3` are the captured groups. |
| `QwenVisual.Exec` | src/tools/QwenVisual.ts:17 | `exec` returns the leftmost match at or after `lastIndex`, and there is no match before it. |
| `QwenVisual.Matches` | src/tools/QwenVisual.ts:14-17 | Every match of the global scan has a name and four digit groups. |
| `QwenVisual.GetMatches` | src/tools/QwenVisual.ts:13-27 | The `exec` loop returns, in order, one box per match of the global scan. The box holds the name and the four groups read with `parseInt(…, 10)`. |
| `QwenVisual.ScanOrdered` | src/tools/QwenVisual.ts:14-26 | Matches are returned left to right and do not overlap. Each one is the match found at its own start. |
| `QwenVisual.ScanComplete` | src/tools/QwenVisual.ts:17-25 | Every position where a match starts lies inside some returned match, so nothing is skipped except inside an earlier match. |
| `QwenVisual.MatchesAreMatchAt` | src/tools/QwenVisual.ts:14-17 | Every returned match is what an anchored attempt finds at its start. |
| `QwenVisual.MatchAtName` | src/tools/QwenVisual.ts:14 | A captured name neither starts nor ends with whitespace, and contains no line terminator. |
| `QwenVisual.MatchesNames` | src/tools/QwenVisual.ts:14-19 | Every name in the result is trimmed and on one line. |
| `QwenVisual.NoMatchWithoutTags` | src/tools/QwenVisual.ts:14-26 | An input without `<ref>` or without `</box>` yields no match. |
| `QwenVisual.NoMatchWithoutClosingTag` | src/tools/QwenVisual.ts:14-26 | An input in which no `</box>` starts after the `<ref>` of any `<ref>` yields no match. |
| `QwenVisual.DecimalValue` | src/tools/QwenVisual.ts:20-23 | `parseInt(…, 10)` of a digit string is zero if and only if every digit is `0`. |
| `QwenVisual.DecimalLeadingZero` | src/tools/QwenVisual.ts:20-23 | `parseInt(…, 10)` ignores a leading zero. |
| `QwenVisual.DecimalRoundTrip` | src/tools/QwenVisual.ts:20-23 | `parseInt` of the decimal digits of `n` is `n`. |
| `QwenVisual.MatchAtRender` | src/tools/QwenVisual.ts:14 | At the start of a rendered box with a plain name, the matcher finds exactly that box's name and digit groups, and stops at the end of the rendering. |
| `QwenVisual.NoMatchAtGap` | src/tools/QwenVisual.ts:14 | No match starts at a character other than `<`. |
| `QwenVisual.BoxRoundTrip` | src/tools/QwenVisual.ts:18-24 | Converting the captures of a rendered box gives back the box. |
| `QwenVisual.ScanLayout` | src/tools/QwenVisual.ts:17-25 | Scanning from the start of a layout of boxes and `<`-free gaps finds exactly those boxes. |
| `QwenVisual.MatchesLayout` | src/tools/QwenVisual.ts:13-27 | `getMatches` of boxes rendered between `<`-free gaps returns exactly those boxes, in order. |
| `QwenVisual.ExampleLayout` | src/tools/QwenVisual.ts:34 | The example reply is the two boxes rendered between the gaps `""`, `" playing with"` and `" on the beach"`. |
| `QwenVisual.ExampleMatches` | src/tools/QwenVisual.ts:33-36 | On the example reply, the matcher returns `"A woman"` (448, 381, 726, 797) followed by `"her dog"` (219, 427, 580, 891). |
| `QwenVisual.TestMain` | src/tools/QwenVisual.ts:33-36 | `testMain` returns exactly those two boxes. |
| `QwenVisual.CreateMessageContent` | src/tools/QwenVisual.ts:38-54 | With no file list or an empty one, the result is the query itself. Otherwise it is the image entries of the files, in file order, followed by one text entry holding the query. |
| `QwenVisual.ImageEntriesAppend` | src/tools/QwenVisual.ts:44-48 | Image entries follow file order: those of a concatenation are those of each part, in turn. |
| `QwenVisual.ImageEntriesMembers` | src/tools/QwenVisual.ts:45-47 | An image entry for URL `u` is present if and only if some file has a type containing `image` and the non-empty URL `u`. |
| `QwenVisual.ImageEntriesShape` | src/tools/QwenVisual.ts:44-48 | There is at most one entry per file, every entry is an image URL, and a list with no qualifying image gives no entry. |
| `QwenVisual.ImageEntriesCount` | src/tools/QwenVisual.ts:44-48 | The number of image entries is exactly the number of files whose type contains `image` and whose URL is non-empty. |
| `QwenVisual.ImageEntriesSkip` | src/tools/QwenVisual.ts:44-48 | A file that does not qualify contributes nothing, wherever it stands in the list. |
| `QwenVisual.ContentEndsWithQuery` | src/tools/QwenVisual.ts:44-51 | The content list ends with the text entry holding the query, and every earlier entry is an image URL. Its length is the number of qualifying image files plus one. |

## Behaviour worth noting

- **Stripping.** System stripping does not remove every system message. After `splice(index, 1)`, the next message slides into the visited index, and `forEach` moves on without looking at it. `StripSystemSkipsNext` states that this message is kept whatever its role, and `StripSystemAdjacent` is an example with two system messages. `StripSystemSeparated` shows that stripping is complete when no two system messages are adjacent.
- **When the role check runs.** The last-role check runs before truncation and before stripping. An empty conversation is not guarded: reading `.role` of the missing last element throws, which the model returns as the error `LastMessageUndefined`.
- **The final frame.** It sets the status to `init`, not to a closed state, and its text is still appended after `close()` is requested.
- **`errorTTS`.** It is not terminal, and a failed frame keeps the text accumulated so far. `result` is never reset by `connectWebSocket`, so a second conversation on the same recorder appends to the first reply.
- **Signing.** The signed text and the `host` query value use the page's own host, not the target endpoint's host.

## Left out

- **Transport.**
  - WebSocket transport: opening, `send` and `close` are recorded as fields (`socketUrl`, `sent`, `closeRequested`); delivery order is an input sequence of events.
  - Asynchrony: the URL promise and the socket's events are modelled as calls that happen in the caller's order. A rejected URL promise, which is only logged, is not modelled.
  - `SparkApi.TTSRecorder.OnOpen`: the `onopen` handler keeps references to the caller's conversation array and parameter object, and reads them only when the socket opens. The model takes their values at `connectWebSocket`, so a change the caller makes in between, such as pushing a placeholder reply, is not modelled.
  - Handlers of an earlier socket are not modelled: after a second `connectWebSocket` they still refer to the same recorder, but the model keeps only the latest connection.
- **Parsing.**
  - `new URL(...)` parsing: the host and path are given as a `Url` value, and an unparsable URL is not modelled.
  - JSON encoding and decoding: a response frame is the record `(code, status, content)`, where `content` is that of `text[0]`. An empty `text` array, on which the source throws, is not modelled.
- **Foreign inputs.**
  - `nanoid()`, `new Date().toUTCString()`, `location.host`, HMAC-SHA256 with Base64, and `btoa` are inputs: fresh ids, a date string, the page host and two uninterpreted string functions.
  - `console` output and the error-detail URL logged by `onerror` are left out.
- **Types and numbers.**
  - `SparkApi.CappedParams`: `max_tokens` is an integer. A fractional or `NaN` value, which JavaScript compares and tests for truthiness differently, is not modelled. The same holds for `temperature`, which is carried as a real number.
  - `QwenVisual.DecimalRoundTrip`: `parseInt` is exact on naturals. Digit strings above 2^53, where a JavaScript number loses precision, are not modelled.
  - Strings are sequences of Unicode characters, not UTF-16 code units. Characters outside the Basic Multilingual Plane, which `.` and `\s` would see as surrogate pairs, are not modelled.
- **Unused or shallow code.**
  - The `endPlay` status is declared but never assigned by the code, so no transition leads to it.
  - `createMessageContent` is `async`: the model returns the content directly. `file.url` truthiness is modelled as a present, non-empty string. `FilePreviewRaw` is a record of the raw MIME type and the optional URL.
- **Files that are not part of this model.**
  - `PlotImg` (src/tools/QwenVisual.ts:29-31) is an empty function.
  - src/network/OpenaiApi.ts is an HTTP client and SDK call with no logic of its own.
  - src/types/OpenaiAPI.d.ts holds only type declarations; its content-part type is mirrored by `ContentPart` and `MessageContent`.
  - src/router/routes.js is static router configuration.

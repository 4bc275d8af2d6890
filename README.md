# YouTube downloader: video-ID extraction, downloader state, download relay

This project models the two pieces of local logic in a small YouTube download front end and its
backend relay, and proves properties of them in Dafny.

- **Video-ID extraction** (`VideoId`). `extractVideoId` tries two regular expressions in order.
  The first accepts the prefixes `youtube.com/watch?v=`, `youtu.be/` and `youtube.com/embed/`;
  the second accepts `youtube.com/shorts/`. It returns the capture group `([^&\n?#]+)` of the
  first pattern that matches, or null. The regular expressions are written as string predicates.
  An alternative *qualifies* at position `i` when its literal occurs there and an allowed
  character follows it. A pattern's match is the leftmost qualifying position, with the
  alternatives tried in order there. The capture is the maximal run of allowed characters.
- **Downloader component** (`Downloader`). This is a class with the component's four state
  slots (`url`, `videoId`, `isLoading`, `videoInfo`) and its three handlers. Editing the URL,
  loading a video and starting a download are each one transition. The download handler returns
  the address it would open.
- **Relay** (`Relay`). The `youtube-download` edge function is a total function. Its inputs are
  the HTTP method, the parsed request body (or what parsing threw), and the provider's parsed
  reply (or what the call threw). It returns the provider request it sends, if any, and the
  response.
- Support modules: `JsText` defines JavaScript white space and `trim`. `JsValue` defines JSON
  values, truthiness, `||`, property reads and thrown values. `Wrappers` defines `Option`.

The relay contacts exactly one provider and has no fallback chain, polling loop or static
fallback address.

## Model

| member | source | states |
|---|---|---|
| `JsText.ContentStart` | src/components/VideoDownloader.tsx:30 | the scan that strips leading white space skips only white space and stops at the end or at a character that is not white space |
| `JsText.ContentEnd` | src/components/VideoDownloader.tsx:30 | the scan back from the end skips only white space and stops at its lower bound or after a character that is not white space |
| `JsText.Trim` | src/components/VideoDownloader.tsx:30-37 | `s.trim()` is empty exactly when every character of `s` is white space (the blank-input guard of both handlers); a non-empty result neither starts nor ends with white space; the input is the result with only white space before and after it |
| `VideoId.RunLength` | src/components/VideoDownloader.tsx:15-16 | the greedy `[^&\n?#]+` run stays inside the string, holds only allowed characters, and stops at the end or at a forbidden character |
| `VideoId.AlternativeAt` | src/components/VideoDownloader.tsx:15 | the alternative chosen at a position is the first one, in the order written, that matches there; none is chosen only when no alternative matches there |
| `VideoId.SearchFrom` | src/components/VideoDownloader.tsx:20 | `match` finds a qualifying position with no qualifying position to its left, and finds none only when no position qualifies |
| `VideoId.CaptureShape` | src/components/VideoDownloader.tsx:15-16 | a capture after a matching literal is non-empty, holds only allowed characters, stands right after the literal and is maximal |
| `VideoId.MatchGroup` | src/components/VideoDownloader.tsx:20-21 | a pattern yields a capture exactly when some alternative is followed by an allowed character; the capture is the one taken at the leftmost such position after the first alternative, in the order written, that matches there; it is a valid ID standing right after one of the pattern's literals |
| `VideoId.FirstMatch` | src/components/VideoDownloader.tsx:19-23 | the loop over the patterns returns null exactly when no pattern matches; otherwise it returns the capture of the first pattern that matches |
| `VideoId.MatchFrom` | src/components/VideoDownloader.tsx:19-23 | the loop continued from a given pattern, all earlier ones having failed, returns null exactly when no later pattern matches, and otherwise the capture of the first pattern that matches |
| `VideoId.ExtractVideoId` | src/components/VideoDownloader.tsx:13-24 | the result is pattern one's capture whenever pattern one matches anywhere, and the shorts pattern's otherwise; null is returned exactly when no occurrence of the four literals is followed by an allowed character; a returned ID is non-empty, has no `&`, `?`, `#` or newline, stands right after one of the four literals and is cut at the end of the URL or at a forbidden character |
| `VideoId.PrefixesExclusive` | src/components/VideoDownloader.tsx:15-16 | no two of the four literals occur at the same position, so the order of the alternation never decides the result |
| `VideoId.ShortLinkExample` | src/components/VideoDownloader.tsx:13-24 | `https://youtu.be/abc?t=1` yields `abc` |
| `VideoId.ShortLinkGroup` | src/components/VideoDownloader.tsx:15 | in that example pattern one matches, and its capture is `abc` |
| `VideoId.NoLinkInScheme` | src/components/VideoDownloader.tsx:15 | in that example no literal of pattern one occurs before position 8, so the leftmost match is the `youtu.be/` at position 8 |
| `VideoId.ShortLinkCapture` | src/components/VideoDownloader.tsx:15 | in that example the greedy capture after `youtu.be/` is `abc`, cut at the `?` |
| `Downloader.VideoDownloader.constructor` | src/components/VideoDownloader.tsx:8-11 | initial state: empty URL, no ID, not loading, no preview; the invariant holds |
| `Downloader.VideoDownloader.HandleUrlChange` | src/components/VideoDownloader.tsx:26-34 | the URL is replaced; an edit whose `trim()` is empty (all white space, by the contract of `Trim`) clears the ID and the preview; any other edit changes only the URL; the invariant is kept |
| `Downloader.VideoDownloader.HandleLoadVideo` | src/components/VideoDownloader.tsx:36-62 | a URL whose `trim()` is empty changes nothing; an unrecognised URL keeps the ID and the preview and ends loading; otherwise the ID is the extracted one, the preview has the fixed title and the `maxresdefault.jpg` thumbnail of that ID, and loading ends; the invariant is kept |
| `Downloader.VideoDownloader.Settle` | src/components/VideoDownloader.tsx:45-61 | after a non-blank load: a missing ID keeps the stored ID and preview; a found ID is stored with its preview; loading ends in both cases; the URL is unchanged and the invariant is kept |
| `Downloader.VideoDownloader.HandleDownload` | src/components/VideoDownloader.tsx:64-74 | a target exists exactly when the stored ID is truthy (under the invariant: exactly when one is stored), and it is `https://www.y2mate.com/youtube/` followed by that ID |
| `JsValue.Truthy` | supabase/functions/youtube-download/index.ts:17 | a JSON value is falsy exactly when it is `undefined`, `null`, `false`, zero or the empty string |
| `JsValue.Get` | supabase/functions/youtube-download/index.ts:15 | reading a property of a non-nullish value gives the object's field when it has one, and `undefined` otherwise |
| `JsValue.Or` | supabase/functions/youtube-download/index.ts:32 | the `or` of two values is one of its operands; it is truthy exactly when one operand is; it is the left operand when that one is truthy and the right operand otherwise |
| `Relay.Handle` | supabase/functions/youtube-download/index.ts:8-103 | every response carries the CORS headers; only the preflight has an empty body, and it has status 200 and only the CORS headers; `success` holds exactly when the status is 200; the status is 200, 400 or 500; a provider request is sent only for a non-preflight request with a truthy `url` |
| `Relay.BuildRequest` | supabase/functions/youtube-download/index.ts:29-36 | the provider request carries the given `url`, codec `h264`, audio format `mp3`, pattern `basic`, the quality when truthy and `720` otherwise (so always a truthy quality), and `isAudioOnly` exactly when `format === 'audio'` |
| `Relay.Classify` | supabase/functions/youtube-download/index.ts:52-91 | the answer to a non-nullish provider reply is JSON; `success` holds exactly when the reply's status is `redirect`, `stream` or `picker`, and exactly when the status code is 200; otherwise the code is 400 for status `error` and 500 for any other; every failure carries a truthy error; the picker body is given exactly for status `picker` |
| `Relay.Answer` | supabase/functions/youtube-download/index.ts:49-101 | the answer after the provider call is JSON; a thrown value gives 500 with its error text; a `null` or `undefined` reply gives 500 with the `TypeError`'s text; success needs a non-nullish reply |
| `Relay.PreflightIgnoresBody` | supabase/functions/youtube-download/index.ts:10-12 | the `OPTIONS` answer depends neither on the body nor on the provider, and it sends no provider request |
| `Relay.MissingUrlRejected` | supabase/functions/youtube-download/index.ts:17-22 | a missing or falsy `url` gives `success: false`, status 400 and `URL é obrigatória`, with no provider request |
| `Relay.ProviderRequestShape` | supabase/functions/youtube-download/index.ts:29-36 | a request is sent exactly when the body has a truthy `url`; it has codec `h264`, audio format `mp3`, pattern `basic`, the quality or `720`, and `isAudioOnly` exactly when `format === 'audio'` |
| `Relay.ReplyUnusedWithoutRequest` | supabase/functions/youtube-download/index.ts:17-50 | when no provider request is sent, the provider's reply cannot change the response |
| `Relay.ProviderErrorReported` | supabase/functions/youtube-download/index.ts:52-60 | status `error` gives 400 with the provider's `text` if truthy, else `Erro ao processar o vídeo`; either way the error is truthy |
| `Relay.DownloadRelayed` | supabase/functions/youtube-download/index.ts:62-71 | status `redirect` or `stream` gives 200 with the provider's `url` and its `filename`, or `video` |
| `Relay.PickerRelayed` | supabase/functions/youtube-download/index.ts:73-83 | status `picker` gives 200 with `picker: true` and the provider's `picker` list as options |
| `Relay.SuccessIffKnownStatus` | supabase/functions/youtube-download/index.ts:52-91 | `success` is true exactly when the provider was asked and answered `redirect`, `stream` or `picker`; any other status gives 500 with `Resposta inesperada do servidor` |
| `Relay.ExceptionReported` | supabase/functions/youtube-download/index.ts:15-101 | a value thrown while reading the body or calling the provider, and the `TypeError` thrown by destructuring a `null` or `undefined` body, gives 500 with the `Error`'s message, or `Erro interno do servidor` for a value that is not an `Error` |

## Left out

- Rendering, icons, styling, the embedded player, toast messages and `window.open`
  (src/components/VideoDownloader.tsx:38, 46, 60, 66, 72-184). These are presentation and
  browser side effects. The download handler returns the address it would open.
- Downloader.VideoDownloader.HandleLoadVideo: the one-second simulated delay and the `await`
  are not modelled (src/components/VideoDownloader.tsx:52). The handler is one atomic step, so
  the intermediate `isLoading = true` state, during which the button is disabled, is not
  observable. Only the final state is stated.
- `serve`, `req.json()`, `fetch` to the provider, `response.json()`, `JSON.stringify` and
  `console.log` in supabase/functions/youtube-download/index.ts. These are runtime and network
  I/O. The parsed body and the parsed provider reply are inputs, each either a value or a thrown
  value. The provider request is an output record; the provider's address
  (supabase/functions/youtube-download/index.ts:27) belongs to the unmodelled `fetch`.
- The text of the `TypeError` the runtime throws on reading a property of `null` is the
  parameter `typeError` of `Relay.Handle`. The same text is used both for destructuring a `null`
  body and for reading `status` of a `null` reply, because the runtime's messages are not
  visible.
- JSON numbers are reals: only their truthiness (non-zero) matters here, and floating-point
  behaviour is not modelled. Strings are sequences of characters, not UTF-16 code units.
- `Relay.Response` keeps header names as written; HTTP's case-insensitive header lookup is not
  modelled.
- Header, Footer and the Index page are presentational components and are not part of this model.

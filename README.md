# Text-to-speech front-end data layer, modelled in Dafny

This project models the browser-side data layer of a text-to-speech
front-end. The layer has three parts:

- **`apiClient`**: the single request primitive. It prefixes the endpoint
  with the configured API base address. It injects a JSON `Content-Type`
  for every body except a multipart form, and the caller's headers can
  override it. It collapses every axios failure into one `Error` message.
- **Three stores**: `tts`, `voices` and `models`. Their writable fields
  become fields of a Dafny class. Their operations become methods that
  update those fields step by step.
- **The network and the toast library**: these stay outside the model.
  A method takes what the network did as an abstract outcome argument.
  It appends what it sent and what it asked the toast to show to an
  ordered `effects` log.

Modules, one per file:

| file | module | models |
|---|---|---|
| `wrappers.dfy` | `Wrappers` | `Option`, for JavaScript's `null` |
| `json.dfy` | `Json` | `JSON.stringify` of the flat objects the stores send, plus a reference decoder and the round-trip lemmas |
| `http.dfy` | `Http` | methods, headers, request bodies, `FormData`, thrown values, `fetch` requests and responses |
| `client.dfy` | `ApiClient` | `apiClient`: request building (`RequestHeaders`, `RequestConfig`) and error normalisation (`Settle`) |
| `lifecycle.dfy` | `Lifecycle` | the effects log: requests, toast events and busy-flag writes, with the busy-flag lemmas |
| `tts.dfy` | `Tts` | the `ModelId`/`OutputFormat` enums, the TTS store, `convert` and `convertAsStream` |
| `voices.dfy` | `Voices` | the voices store, `fetchVoices`, `addVoice`, `delVoice` |
| `models.dfy` | `Models` | the models store, `fetchModels` |

Main results:

- **Busy flag.** `TtsStore.Valid()` says two things. First, `isConverting`
  equals the last busy-flag write in the log. Second, every request in the
  log went out while the flag was up. Both conversions keep this invariant
  and finish with the flag down, whether they succeed or fail. The proof
  rests on `Lifecycle.BracketedKeepsDiscipline`.
- **JSON bodies.** The streaming conversion and `delVoice` send bodies made
  by `JSON.stringify`. Each body provably decodes back to exactly the
  properties that were serialised (`Json.StringifyRoundTrip`).
- **Collection stores.** A successful fetch replaces the list wholesale and
  clears the store's error field. A failed fetch leaves the list as it was
  and stores the same text the toast shows. `addVoice` and `delVoice` change
  nothing but the log. Their `modifies` clauses name only `effects`.
- **`isFetching` after a failed `fetchVoices`.** `voices.ts` resets
  `isFetching` in the statement after `await toast.promise(...)`, not in a
  `finally` (voices.ts:40). If the fetch fails and the toast re-raises the
  failure, that statement never runs. `FetchVoices` therefore ends with
  `isFetching` still true on failure. The model keeps this behaviour as
  written.

Three further facts about the code shape the model:

- The TTS store declares no error field. `convertAsStream` writes only
  `isConverting`, and it reports a failure only through the rethrown
  `Error` and the toast.
- `convert` and `convertAsStream` raise `isConverting` (tts.ts:52, 88)
  and lower it in a `finally` (tts.ts:76, 115). `fetchVoices` raises
  `isFetching` (voices.ts:23) and lowers it only after a successful
  `await` (voices.ts:40). `fetchModels`, `addVoice` and `delVoice` have no
  busy flag. No shared wrapper manages the flags.
- `convert` asks for a `blob` response (tts.ts:65). An error response's
  `data` is then a Blob, which has no `message` property, so `apiClient`
  (client.ts:23) falls back to the status text. `ApiClient.ReceivedAs`
  models this, and `Tts.ConvertResult` states it.

## Model

| member | source | states |
|---|---|---|
| `ApiClient.RequestHeaders` | src/lib/api/client.ts:8-10 | For a `FormData` body, the headers are exactly the caller's (none if absent). For any other body, including no body and a JSON string, `Content-Type` is present. Its value is the caller's own `Content-Type` if given, else `application/json`. Every other header is the caller's, unchanged. |
| `ApiClient.RequestConfig` | src/lib/api/client.ts:5-17 | The URL is the base address followed by the endpoint, with nothing in between. Method, data and response type pass through unchanged. The computed headers replace the caller's. |
| `ApiClient.ReceivedAs` | src/lib/api/client.ts:21-23 | For a request that asks for a `blob` response, an error response keeps its status and status text but has no readable `message`. For any other response type, and for every other outcome, the outcome is read as it arrived. |
| `ApiClient.BlobErrorShowsStatusText` | src/lib/api/client.ts:21-23 | A failed `blob` request throws `Error(statusText)`, whatever message the server's error body carries. |
| `ApiClient.Settle` | src/lib/api/client.ts:12-29 | A response is returned unchanged. An axios error with a response throws `Error(message)` when the server's `message` is non-empty, else `Error(statusText)`. An axios error without a response throws `Error` with the transport's own message. Any other thrown value is rethrown as it is. |
| `Json.EscapeChar` | src/stores/tts.ts:96-101 | A character is escaped (starts with a backslash) exactly when it is `"`, `\` or a control character below U+0020. |
| `Json.Stringify` | src/stores/tts.ts:96-101 | The empty object is `{}`. Any other object starts with `{` followed by the opening quote of its first key. `Json.StringifyRoundTrip` states the full inverse. |
| `Json.PlainQuotesVerbatim` | src/stores/voices.ts:67-69 | A string with no quote, backslash or control character is serialised verbatim. |
| `Json.QuoteParses` | src/stores/tts.ts:96-101 | Every quoted string decodes back to itself and leaves the text after it untouched. |
| `Json.StringifyRoundTrip` | src/stores/tts.ts:96-101 | Decoding `JSON.stringify` of any flat object of string/`null` properties gives back exactly those properties, in order. |
| `Lifecycle.ErrorText` | src/stores/voices.ts:33-37 | The toast's failure text, which `fetchVoices` also stores in `error`, is the message of an `Error` and the fixed fallback for any other thrown value. The same callback shape appears at tts.ts:82, tts.ts:121 and models.ts:36-40. |
| `Lifecycle.SettledToast` | src/stores/tts.ts:78-83 | The closing toast is the success label exactly when the operation returned. Otherwise it is a failure whose text is `ErrorText` of the thrown value. It is never the loading label. |
| `Lifecycle.BusyAfterAppend` | src/stores/tts.ts:52-77 | The flag after two logs run one after the other is the flag after the second, started from where the first left it. |
| `Lifecycle.BusyAfterWrite` | src/stores/voices.ts:23 | After a busy-flag write, the flag is the value written, whatever the log held before. |
| `Lifecycle.BusyAfterQuiet` | src/stores/voices.ts:64-80 | A request with its loading and outcome toasts writes no flag, so the flag stays where the earlier log left it. |
| `Lifecycle.RequestsWhileBusyAppend` | src/stores/tts.ts:52-77 | "Every request was sent while the flag was up" holds for two logs run one after the other when it holds for each. |
| `Lifecycle.BracketedKeepsDiscipline` | src/stores/tts.ts:51-85 | The pattern raise flag, send, loading toast, lower flag in `finally`, outcome toast keeps every request under a raised flag. It leaves the flag down, whatever the request and however it settled. |
| `Tts.ModelIdNamesDistinct` | src/stores/tts.ts:8-18 | Distinct `ModelId` members have distinct string values. |
| `Tts.OutputFormatNamesDistinct` | src/stores/tts.ts:19-31 | Distinct `OutputFormat` members have distinct string values. |
| `Tts.ConvertRequest` | src/stores/tts.ts:57-66 | `convert` POSTs to base + `/api/tts/convert` with response type `blob` and header `Content-Type: application/json`. Its body is the object of the four parameters: voiceId, text, outputFormat, modelId. |
| `Tts.StreamRequestCarriesParameters` | src/stores/tts.ts:93-102 | `convertAsStream` fetches base + `/api/tts/stream` with `Content-Type: application/json`. Its string body decodes to exactly the four parameters. |
| `Tts.ConversionError` | src/stores/tts.ts:69-74 | An `Error` becomes an `Error` whose message is `Conversion failed: ` followed by the original message. Any other thrown value is rethrown unchanged. |
| `Tts.ConvertResult` | src/stores/tts.ts:57-74 | `convert` yields the response's `data` exactly when the request succeeds. An error response fails with `Conversion failed: <statusText>`, because a `blob` error body has no `message`. A transport failure fails with its own message behind the prefix. Any other thrown value goes through the same wrapping. |
| `Tts.StreamRequest` | src/stores/tts.ts:93-101 | The `fetch` request goes to the base address followed by `/api/tts/stream`, as a POST, with exactly the header `Content-Type: application/json`. |
| `Tts.StreamResult` | src/stores/tts.ts:93-113 | `convertAsStream` returns the very response it got exactly when that response is ok. A status that is not ok fails with `Conversion failed: <statusText>`. A rejected `fetch` goes through the same wrapping. |
| `Tts.FailureToastShowsPrefix` | src/stores/tts.ts:82 | The toast shows a conversion `Error` with its `Conversion failed: ` prefix. |
| `Tts.StreamServiceUnavailable` | src/stores/tts.ts:103-110 | A 503 `Service Unavailable` from the stream endpoint fails with `Conversion failed: Service Unavailable`. |
| `Tts.TtsStore.constructor` | src/stores/tts.ts:44-49 | Initial state: voiceId and text null, outputFormat `mp3_44100_128`, modelId `eleven_multilingual_v2`, isConverting false. |
| `Tts.TtsStore.Convert` | src/stores/tts.ts:51-85 | Sets isConverting to true, then sends the request built from the current fields, then shows the loading toast. It lowers the flag on both paths and shows the outcome toast. It returns `ConvertResult`, keeps `Valid()` and changes no other field. |
| `Tts.TtsStore.ConvertAsStream` | src/stores/tts.ts:87-124 | Does the same with the `fetch` request and its own labels. It returns `StreamResult`, keeps `Valid()` and ends with isConverting false. |
| `Voices.FailureText` | src/stores/voices.ts:59 | A create/delete failure text is the operation's prefix followed by the `Error`'s message, or the fixed fallback for a non-`Error`. |
| `Voices.OperationToast` | src/stores/voices.ts:74-78 | The closing toast of `addVoice` or `delVoice` is the success label exactly when the request returned. An `Error` shows the operation's prefix followed by its message. Any other thrown value shows the fallback. |
| `Voices.ListRequestShape` | src/stores/voices.ts:26 | `fetchVoices` sends a GET (the default method) to base + `/api/voices` with no body. It therefore gets the JSON content type. |
| `Voices.CreateRequestShape` | src/stores/voices.ts:46-54 | `addVoice` POSTs to base + `/api/voices`. Its data is a form of exactly three entries, in order: `files` (the file), `name` (the name) and `removeBackgroundNoise` (`'true'` or `'false'`). Looking each name up finds that entry. No `Content-Type` is added. |
| `Voices.DeleteRequestShape` | src/stores/voices.ts:67-72 | `delVoice` sends a DELETE to base + `/api/voices` with the JSON content type. Its data is a string body, the `JSON.stringify` text of `{voiceId: id}`, and that text decodes to exactly `{voiceId: id}`. |
| `Voices.DeleteBodyOfPlainId` | src/stores/voices.ts:69-71 | For an id without quotes, backslashes or control characters (such as `v42`), the body `delVoice` sends is exactly `{"voiceId":"` + id + `"}`. |
| `Voices.DeleteNotFoundText` | src/stores/voices.ts:77 | A 500 answer whose body carries the message `not found` ends `delVoice` with the toast `Failed to delete voice: not found`. |
| `Voices.VoicesStore.constructor` | src/stores/voices.ts:14-20 | Initial state: error null, voices empty, name/files/delVoiceId null, removeBackgroundNoise `'true'`, isFetching false. The invariant `Valid()` holds: isFetching is the last busy write in the (empty) log. |
| `Voices.VoicesStore.FetchVoices` | src/stores/voices.ts:22-41 | Raises isFetching (logged as a busy write) before the list request goes out. On success: voices is replaced by the response data, error becomes null, and isFetching is lowered after the success toast. On failure: voices is unchanged and error holds the toast's own text. The failure propagates, so isFetching stays up and no lowering is logged. Keeps `Valid()`: isFetching is the last busy write in the log. Only isFetching, voices, error and the log may change. |
| `Voices.VoicesStore.AddVoice` | src/stores/voices.ts:43-62 | Builds the three-entry form by appending, posts it and shows `Failed to create voice: …` or the fallback on failure. Only the log changes. It writes no busy flag, so `Valid()` is kept. |
| `Voices.VoicesStore.DelVoice` | src/stores/voices.ts:64-80 | Sends the DELETE with the JSON-string body and shows `Failed to delete voice: …` or the fallback on failure. Only the log changes. It writes no busy flag, so `Valid()` is kept. |
| `Http.FormData.Append` | src/stores/voices.ts:46-49 | `append` adds one entry at the end and keeps the earlier ones. |
| `Models.ListRequestShape` | src/stores/models.ts:29 | `fetchModels` sends a GET (the default method) to base + `/api/models` with no body. It therefore gets the JSON content type. |
| `Models.ModelsStore.constructor` | src/stores/models.ts:23-24 | Initial state: models empty, error null. |
| `Models.ModelsStore.FetchModels` | src/stores/models.ts:26-43 | On success: models is replaced by the response data and error becomes null. On failure: models is unchanged and error holds the same text the toast shows. Only models, error and the log may change. |

The client methods `Tts.StreamThenConvert` and `Models.FetchModelsTwice`
show what a caller can prove from these contracts alone. One example is a
503 streaming conversion followed by a successful buffered one. Another is
a fetch that succeeds, then fails, then succeeds.

## Left out

- The network: axios and `fetch` are not modelled. What they did with a request arrives as an `Outcome` (axios) or a `FetchOutcome` (`fetch`) argument. The model does not cover axios's own processing: its case-insensitive header normalisation, its JSON encoding of object bodies, and its default response type.
- Stream consumption: a `Blob` and an open response body are opaque values, and nothing reads the stream.
- The toast library (`@jill64/svelte-toast`) is not part of this model. Its calls appear as `Loading`/`Succeeded`/`Failed` events in the log. The model assumes `toast.promise` settles the way the promise it is given settles. It returns the value, and it re-raises the failure after the error callback has run. The `isFetching` behaviour described above depends on this assumption.
- Svelte store mechanics (`writable`, `get`, subscriptions) are plain class fields. The page writes the parameter fields directly.
- Overlapping invocations: each method runs to completion as one step. In the source, two overlapping `convert` calls can interleave their writes to `isConverting`. There is no deduplication or cancellation.
- The API base address (`PUBLIC_API_URL`) is a constructor argument, fixed for the store's lifetime.
- Caller options other than method, data, headers and responseType are not modelled. No caller in the stores passes any.
- A server `message` field that is not a string is not modelled.
- JSON: only flat objects with string or `null` values are modelled, which is all the stores send. The decoder accepts only the compact form `JSON.stringify` emits. It does not combine surrogate-pair escapes. Lone surrogates, which QuoteJSONString escapes, cannot occur in a Dafny string.
- Unused declarations: `convertState`, the text-normalisation enum and `VoiceSettings`. The numeric fields of a model record are also left out, because they are floats and nothing reads them.
- The commented-out axios streaming variant of `convertAsStream` is dead code.
- Type declarations, build configuration and the echo route `src/routes/tts/+server.ts` are not part of this model.

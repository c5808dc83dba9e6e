# Pollinations text relay — a Dafny model

This project models the text path of `PollinationsTextStream` in
`src/utils/chatStream.ts`. That function builds a chat request for the
Pollinations text endpoint and posts it. It refuses any response whose status
is not 200. Otherwise it turns the upstream server-sent-event body into an
output `ReadableStream` of text chunks. It optionally unwraps each event's
JSON `content` field and stops at the `[DONE]` sentinel.

Modules:

- `Wrappers`: `Option` (JavaScript `undefined`, a failed JSON parse) and
  `Result` (a value or a thrown error).
- `Request`: `createPrompt`, `generateSeed` and the request body with the
  optional system message put in front.
- `Relay`: the `onParse` policy as a step function `Step` on
  (chunks enqueued, stream state). It also holds the `for await` loop as the
  fold `Feed`, the bodiless branch `Bodiless`, and a reference pipeline
  `Expected` that the fold is proved equal to. The pipeline is: notifications
  before the first sentinel, then their payloads, then the texts up to the
  first parse failure.
- `TextStream`: the status gate and the whole call composed.
- `Controller`: the output stream's controller as section 4 (Readable streams)
  of the WHATWG Streams Standard defines `close`, `enqueue` and `error`. It is
  driven by the callback exactly as written. It justifies `Relay`'s terminal
  states and supports the finding below.

Collaborators are parameters:

- The random draw behind the seed is a real `r` in [0, 1).
- `fetch` is a function from the request body to a response or a rejection.
- `JSON.parse(data).content` is a function `string -> Option<string>`.
  `None` means it threw.
- The event-source parser is a function from the decoded body reads to a
  sequence of `Event(data)` / `Reconnect` notifications.
- Text encoding and decoding are the identity on strings.

In these places the model keeps behaviour of the code that a reader might not expect:

- A streamed body that ends without `[DONE]` leaves the output stream `Open`.
  No `close()` follows the loop (lines 181-186).
- The gate tests for exactly 200, not for any 2xx (line 125).
- An empty prompt is not a precondition. `createPrompt` returns `undefined`,
  and the request is still sent with no user content (`Message(User, None)`).
- The bodiless branch does not test for the sentinel. A whole body of
  `[DONE]` is relayed as text.
- The bodiless branch is taken only when `res.body` is null. Under the Fetch
  Standard, `text()` on a null body resolves to "". On such a response the
  branch relays "" in plain mode. In JSON mode it errors, since
  `JSON.parse("")` throws. `NoBody(text)` keeps the text general, so it also
  covers runtimes whose responses carry a buffered text without a stream.
- "Chunks already emitted are kept" holds for the chunks the relay enqueues,
  which is what `Relay` records. Under the Streams Standard, `error()` drops
  the chunks a reader has not yet taken (see `Controller`).

## Model

| member | source | states |
|---|---|---|
| Request.GenerateSeed | src/utils/chatStream.ts:9 | for a draw in [0, 1) the seed is an integer in [0, 100000), the floor of draw × 100000 |
| Request.EverySeedReachable | src/utils/chatStream.ts:9 | every integer in [0, 100000) is the seed of some draw in [0, 1) |
| Request.BuildRequest | src/utils/chatStream.ts:90-111 | one user message holding the prompt (absent when the prompt is empty), preceded by a system message exactly when the system prompt is truthy; the model copied or "mistral" when omitted, JSON mode copied or off when omitted, the seed equal to the one generated from the draw |
| Request.SystemPromptOnlyPrepends | src/utils/chatStream.ts:100-111 | a truthy system prompt adds exactly one message in front of the body built without it and changes nothing else |
| TextStream.PollinationsTextStream | src/utils/chatStream.ts:90-191 | a rejected fetch fails with its error; any status other than exactly 200 fails with no stream, with the error text "Pollinations API returned an error: " followed by the first decoded body read when that is non-empty, else by the status text, or the read's own rejection; a streamed body relays the reference pipeline's chunks and state, errored if a read fails while open; a bodiless one gives one chunk and Closed, or nothing and Errored |
| Relay.Bodiless | src/utils/chatStream.ts:163-178 | the stream ends Closed with the single text exactly when the text is obtained, else Errored with no chunk |
| Relay.BeforeDone | src/utils/chatStream.ts:142-145 | the longest prefix of the notifications with no sentinel, followed in the input by the sentinel when shorter |
| Relay.Texts | src/utils/chatStream.ts:147-156 | the texts of the payloads, position by position, up to the first payload that fails to parse |
| Relay.FeedTerminal | src/utils/chatStream.ts:142-156 | Closed and Errored are terminal: further notifications change neither the chunks nor the state |
| Relay.FeedAppend | src/utils/chatStream.ts:181-184 | feeding a body in two pieces equals feeding it whole: within the relay model, the split of the notifications into network reads does not change what is enqueued (what a reader receives can still depend on it, see Controller) |
| Relay.PayloadsAppend | src/utils/chatStream.ts:138-140 | the payloads of a body split in two are the payloads of each part, in order |
| Relay.FeedKeepsChunks | src/utils/chatStream.ts:153-156 | chunks already enqueued stay, in order, as a prefix of the output |
| Relay.FeedMatchesExpected | src/utils/chatStream.ts:138-184 | the fold equals the reference pipeline: chunks are the texts before the sentinel up to the first failure; Errored iff some payload before the sentinel fails, else Closed iff a sentinel came, else Open |
| Relay.PlainRelay | src/utils/chatStream.ts:139-154 | without JSON mode the chunks are exactly the event data before the first sentinel in arrival order; Closed iff a sentinel came, never Errored |
| Relay.JsonRelay | src/utils/chatStream.ts:147-156 | in JSON mode each chunk is the parsed content of the payload at its position; Errored iff a payload before the sentinel fails, and then that payload is the one right after the last chunk |
| Relay.SentinelCloses | src/utils/chatStream.ts:142-145 | the sentinel closes an open stream, adds no chunk, and nothing after it is relayed |
| Relay.SentinelNeverParsed | src/utils/chatStream.ts:142-152 | two JSON parsers that differ only on "[DONE]" relay every body the same, so the sentinel is never parsed |
| Relay.ReconnectsIgnored | src/utils/chatStream.ts:138-139 | removing the reconnect notices from a body changes nothing that is relayed |
| Relay.BodilessIsOneEvent | src/utils/chatStream.ts:163-178 | the bodiless branch is one event through the streaming policy and then close, except that "[DONE]" is relayed as text |
| Controller.Enqueue | src/utils/chatStream.ts:153-154 | enqueue succeeds exactly on a readable stream with no pending close; it appends the chunk to what the reader gets (to the queue when no read is waiting), leaves the close request alone and never takes back a delivered chunk |
| Controller.Close | src/utils/chatStream.ts:143 | close succeeds exactly when enqueue would; it records the request and keeps queue and delivered chunks; the stream becomes Closed if no chunk is queued and otherwise stays readable |
| Controller.Error | src/utils/chatStream.ts:155-156 | error on a readable stream errors it and drops its queue; otherwise it does nothing |
| Controller.EagerAsWrittenMatchesModel | src/utils/chatStream.ts:138-184 | with a reader that always has a read outstanding, the loop as written delivers exactly what Relay.Feed emits |
| Controller.UntilDoneMatchesModel | src/utils/chatStream.ts:142-145 | a loop that stops at the first sentinel delivers what Relay.Feed emits for either reader, short of the queue that error drops |
| Controller.RunAsWrittenFinished | src/utils/chatStream.ts:142-156 | once the stream is closed or errored, the loop as written changes nothing more |
| Controller.RunAsWrittenSkipsReconnects | src/utils/chatStream.ts:138-139 | reconnect notices leave the loop as written where it was |
| Controller.LateEventAfterDone | src/utils/chatStream.ts:142-156 | whenever chunks are still queued at the sentinel and another event or sentinel follows it, with only reconnect notices in between, the loop as written errors the stream and loses the queued chunks, while the corrected loop and the relay model deliver them and close |
| Controller.LateEventExample | src/utils/chatStream.ts:142-156 | on the bodies A, [DONE], B and A, [DONE], [DONE] with nothing read yet, the reader gets an error and no A, while the relay model gives A then Closed |

## Findings

| source | as written | input that shows it | evidently intended | confidence | as-written member | corrected member |
|---|---|---|---|---|---|---|
| src/utils/chatStream.ts:142-145, 181-184 | after `close()` on "[DONE]" the loop keeps feeding events. With chunks still queued the stream stays readable. The next event's `enqueue` throws, the catch calls `error()`, and that errors the stream and drops the queued chunks. A second "[DONE]" throws out of the callback with the same effect | one read carrying events `A`, `[DONE]`, `B` before the reader has read anything: the reader gets an error and no `A`. Also, with one read pending, one network read carrying `A`, `B`, `[DONE]`, `C`: `A` is delivered, `B` is queued and lost, and the stream errors | stop relaying at the first "[DONE]": the reader gets `A`, then the stream closes | medium (standard semantics followed step by step; needs upstream data after the sentinel); not executed | `Controller.RunAsWritten` / `Controller.LateEventAfterDone` / `Controller.LateEventExample` | `Controller.RunUntilDone` / `Controller.UntilDoneMatchesModel` |

## Left out

- The endpoint URL, HTTP method, headers and JSON serialisation of the request (lines 98, 114-119) are network I/O. `fetch` is a parameter.
- Server-sent-event framing and frame reassembly belong to the external event-source parser, which implements section 9.2 (Server-sent events) of the HTML Living Standard. The parser is a parameter from reads to notifications.
- `TextEncoder` / `TextDecoder` are modelled as the identity on strings. Each read is decoded on its own, so a multi-byte character split across two reads is garbled. That is not modelled.
- `JSON.parse(..).content` is a parameter. The coercion of a non-string `content` by the encoder is folded into that parameter.
- Request.GenerateSeed: uses exact real arithmetic for `Math.random() * 100000`. The floating-point rounding of the product is not modelled.
- The `endent` templating inside `createPrompt` is an external library, modelled as the identity on a non-empty prompt.
- `resizeImage`, `fileToBase64`, `PollinationsImageAnalysis` and `PollinationsVideoAnalysis` (lines 12-75, 194-319) are DOM, canvas, FileReader, timers and floating-point media code, outside the text relay.
- The route handlers in `app/api/chatAPI/route.ts` only forward to `PollinationsTextStream` and map any throw to a 500 response.
- `console.error` logging is not modelled.
- The error objects passed to `controller.error` are not modelled. Only the resulting state is.
- Consumer timing in general is not modelled. `Relay` treats Closed and Errored as final. That is exact only for a reader with one read pending for every event (`Controller.EagerAsWrittenMatchesModel`). A reader that keeps one read pending at a time cannot re-arm between the events of one network read, which the event-source parser dispatches synchronously. For such a reader, an event after "[DONE]" in the same read can error the stream (see Findings). `Controller` also models a reader that reads only after the relay. Other interleavings are not modelled.
- Cancellation of the output stream by its reader is not modelled. After the stream is closed, the loop still reads the rest of the body.

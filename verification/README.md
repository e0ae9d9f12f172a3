# Garuda AI Assistant front end — a verified model

This project models the core of the Garuda ("J.A.R.V.I.S") voice assistant's
browser front end and proves properties of it:

- **The tool dispatcher** (`toolExecutor.ts`, module `ToolExecutor`,
  `tool_executor.dfy`): the six-entry tool catalog, `normalizeUrl`, and
  `executeTool`, which maps a tool name and its arguments to one navigation
  of the browser window (returned as a `Navigation` value) and a
  `{success}` result, or throws a `TypeError` when an open tool gets no
  `url`.
- **The audio codec** (`geminiService.ts` lines 10-48, module `AudioCodec`,
  `audio_codec.dfy`): the character/byte loops of `decode` and `encode`,
  the 16-bit little-endian view of a byte buffer, the channel
  de-interleaving of `decodeAudioData` (samples as exact reals `v / 32768`),
  and the Float32-to-Int16 conversion of `createPcmBlob` with the
  ECMAScript `ToInt16` wrap-around.
- **The session orchestration** of `connectToJarvis` (module
  `JarvisSession`, `jarvis_session.dfy`, with properties in module
  `SessionLaws`, `session_laws.dfy`): a class `Session` with the closure
  state `nextStartTime` and `sources`, the `onaudioprocess`, `onmessage`,
  `ended`, `onerror` and `onclose` handlers, and `close`. Every effect on the
  outside world (application callbacks, window navigation, messages to the
  remote model, starting and stopping audio sources, closing the audio
  contexts) is appended in order to the session's `trace`. Time is counted
  in ticks of the output sample clock (1/24000 s), so a chunk of n mono
  frames lasts n ticks. Each handler is proved against a pure function of
  the old state (`AudioStep`, `Ended`, `Interrupted`, `BatchEvents`,
  `Route`, `CloseEvents`) and keeps the invariant `Session.Valid` (sources
  distinct and created; each audio context closed at most once, and the
  closed flags agree with the trace).
- **The application component** (`App.tsx`, module `AppModel`, `app.dfy`):
  a class `App` with the message log, the bounded tool log, the two
  transcript buffers, the assistant state and the session reference;
  `String.prototype.trim` is modelled with the ECMAScript whitespace set.
  `App.Valid` keeps the tool log at most 7 entries and every logged message
  non-blank.

`Types` (`types.dfy`) holds `AppState` and `Message` from `types.ts`.

Behaviours of the code that the model keeps as written:

- `normalizeUrl` tests the plain prefix `"http"`, not a scheme: `httpbin.org`
  is left without a scheme (`NormalizeUrlPrefixOnly`).
- `createPcmBlob` stores `x * 32768` through `ToInt16`, so `+1.0` wraps to
  `-32768` and reads back as `-1.0` (`FullScaleWraps`). The
  quantisation round trip within one 16-bit step holds on `[-1, 1)` only
  (`QuantizeWithinOneStep`, `PcmRoundTrip`), not on `[-1, 1]`.
- A malformed (odd-length) audio payload is not skipped: the `Int16Array`
  constructor throws and the rest of that message's handler (tool calls,
  turn completion, interruption) never runs (`OddAudioAbortsMessage`).
- A channel error does not release the session: `onerror` only reports it;
  the application shows a message, goes IDLE and drops its reference,
  without closing the session (`App.OnError`).
- The system prompt tells the model to call `youtubeSearch`, which the
  catalog does not declare (it declares `searchYouTube`); such a call fails
  like any unknown name (`YoutubeSearchIsUnknown`).

## Model

| member | source | states |
|---|---|---|
| ToolExecutor.DeclaredNamesAre | Garuda-AI-Assistant-main/Frontend/services/toolExecutor.ts:1-56 | the catalog declares exactly the six names openUrl, openUrlNewTab, searchGoogle, searchYouTube, searchAmazon, searchFlipkart |
| ToolExecutor.CatalogAgreement | Garuda-AI-Assistant-main/Frontend/services/toolExecutor.ts:1-56 | every declaration has exactly one property, a string, which is its one required parameter, and executing its name with that argument succeeds with a navigation |
| ToolExecutor.NormalizeUrl | Garuda-AI-Assistant-main/Frontend/services/toolExecutor.ts:58-61 | the result starts with "http"; a url starting with "http" is returned unchanged, any other gets "https://" in front |
| ToolExecutor.NormalizeUrlIdempotent | Garuda-AI-Assistant-main/Frontend/services/toolExecutor.ts:58-61 | normalising twice is normalising once |
| ToolExecutor.NormalizeUrlPrefixOnly | Garuda-AI-Assistant-main/Frontend/services/toolExecutor.ts:59 | the test is a plain prefix test: "httpbin.org" is unchanged, "example.com" becomes "https://example.com" |
| ToolExecutor.ExecuteTool | Garuda-AI-Assistant-main/Frontend/services/toolExecutor.ts:63-104 | an open tool throws if and only if its `url` argument is missing; otherwise the result is success exactly when a navigation happens |
| ToolExecutor.DeclaredIffHandled | Garuda-AI-Assistant-main/Frontend/services/toolExecutor.ts:63-104 | a name is in the catalog if and only if executing it throws or succeeds |
| ToolExecutor.UnknownToolFails | Garuda-AI-Assistant-main/Frontend/services/toolExecutor.ts:101-102 | any name outside the catalog, with any arguments, fails and navigates nowhere |
| ToolExecutor.YoutubeSearchIsUnknown | Garuda-AI-Assistant-main/Frontend/services/geminiService.ts:118-119 | the name the prompt advertises, youtubeSearch, is not declared and its call fails without navigation |
| ToolExecutor.OpenTools | Garuda-AI-Assistant-main/Frontend/services/toolExecutor.ts:65-71 | openUrl navigates the current tab to the normalised url; openUrlNewTab opens it in `_blank` with `noopener,noreferrer`; both succeed |
| ToolExecutor.SearchTools | Garuda-AI-Assistant-main/Frontend/services/toolExecutor.ts:73-99 | each search tool succeeds and opens `_blank` at its fixed prefix followed by the encoded query |
| ToolExecutor.SearchGoogleCats | Garuda-AI-Assistant-main/Frontend/services/toolExecutor.ts:73-78 | with an encoder that keeps "cats", searchGoogle opens https://www.google.com/search?q=cats |
| AudioCodec.Decode | Garuda-AI-Assistant-main/Frontend/services/geminiService.ts:10-16 | one byte per character; byte i is char code i stored into a Uint8Array (mod 256) |
| AudioCodec.Encode | Garuda-AI-Assistant-main/Frontend/services/geminiService.ts:18-22 | one character per byte; char code i is byte i |
| AudioCodec.BytesRoundTrip | Garuda-AI-Assistant-main/Frontend/services/geminiService.ts:10-22 | decoding the encoding of any bytes gives the bytes back |
| AudioCodec.BinaryStringRoundTrip | Garuda-AI-Assistant-main/Frontend/services/geminiService.ts:10-22 | encoding the decoding of a binary string (codes below 256) gives the string back |
| AudioCodec.Int16View | Garuda-AI-Assistant-main/Frontend/services/geminiService.ts:30 | the view fails (RangeError) exactly on an odd byte count; otherwise it has half as many samples as bytes |
| AudioCodec.SampleBytesRoundTrip | Garuda-AI-Assistant-main/Frontend/services/geminiService.ts:47 | a sample's low and high bytes reassemble to the sample |
| AudioCodec.BytePairRoundTrip | Garuda-AI-Assistant-main/Frontend/services/geminiService.ts:30 | splitting a reassembled sample gives back its two bytes |
| AudioCodec.Int16RoundTrip | Garuda-AI-Assistant-main/Frontend/services/geminiService.ts:45-47 | serialising samples little-endian gives twice as many bytes, and viewing them as Int16 gives the same samples |
| AudioCodec.BytesViewRoundTrip | Garuda-AI-Assistant-main/Frontend/services/geminiService.ts:30 | an even-length buffer is the serialisation of its own Int16 view |
| AudioCodec.Sample | Garuda-AI-Assistant-main/Frontend/services/geminiService.ts:37 | `v / 32768` lies in [-1, 1) and is exact |
| AudioCodec.MonoSamples | Garuda-AI-Assistant-main/Frontend/services/geminiService.ts:30-39 | mono decoding fails exactly on an odd byte count (the Int16Array view throws) or an empty buffer (`createBuffer` of zero frames throws), else gives one sample per two bytes |
| AudioCodec.InterleavedIndexInBounds | Garuda-AI-Assistant-main/Frontend/services/geminiService.ts:36-37 | every index `i * numChannels + channel` read is within the Int16 view |
| AudioCodec.InterleavedIndexUnique | Garuda-AI-Assistant-main/Frontend/services/geminiService.ts:34-39 | no two (frame, channel) pairs read the same index |
| AudioCodec.InterleavedIndexCovers | Garuda-AI-Assistant-main/Frontend/services/geminiService.ts:34-39 | when the sample count is a multiple of the channel count, every index is read by some (frame, channel) |
| AudioCodec.ChannelOf | Garuda-AI-Assistant-main/Frontend/services/geminiService.ts:35-38 | a channel has `length / numChannels` frames (rounded down, as createBuffer truncates) |
| AudioCodec.DeInterleave | Garuda-AI-Assistant-main/Frontend/services/geminiService.ts:34-39 | one channel per `numChannels`, each of `length / numChannels` frames |
| AudioCodec.DecodeAudioData | Garuda-AI-Assistant-main/Frontend/services/geminiService.ts:24-41 | fails exactly on an odd byte count or a frame count that truncates to zero (`createBuffer` throws); otherwise channel c, frame i holds sample `i * numChannels + c` divided by 32768 |
| AudioCodec.MonoDeInterleave | Garuda-AI-Assistant-main/Frontend/services/geminiService.ts:213 | with one channel, de-interleaving a non-empty even-length buffer is the plain sample sequence |
| AudioCodec.ToInt16 | Garuda-AI-Assistant-main/Frontend/services/geminiService.ts:46 | an Int16Array store keeps the truncated value modulo 65536 |
| AudioCodec.CreatePcmBlob | Garuda-AI-Assistant-main/Frontend/services/geminiService.ts:43-48 | the payload has two bytes per sample, the quantised samples little-endian, with MIME type `audio/pcm;rate=16000` |
| AudioCodec.QuantizeWithinOneStep | Garuda-AI-Assistant-main/Frontend/services/geminiService.ts:46 | on [-1, 1) nothing wraps and decoding the stored value is within one 16-bit step of the input |
| AudioCodec.FullScaleWraps | Garuda-AI-Assistant-main/Frontend/services/geminiService.ts:46 | +1.0 is stored as -32768 and decodes as -1.0 |
| AudioCodec.PcmRoundTrip | Garuda-AI-Assistant-main/Frontend/services/geminiService.ts:43-48 | a non-empty block in [-1, 1) sent by createPcmBlob and decoded as mono audio has the same length and each sample within one step; an empty block would not decode |
| JarvisSession.Remove | Garuda-AI-Assistant-main/Frontend/services/geminiService.ts:219 | `sources.delete(id)` keeps exactly the other members |
| JarvisSession.StopAll | Garuda-AI-Assistant-main/Frontend/services/geminiService.ts:251-254 | one stop per source, in the set's order |
| JarvisSession.Session.Open | Garuda-AI-Assistant-main/Frontend/services/geminiService.ts:157-161 | a new session has cursor 0, no sources, both contexts open |
| JarvisSession.Session.OnAudioProcess | Garuda-AI-Assistant-main/Frontend/services/geminiService.ts:181-185 | each captured block is sent once as the createPcmBlob payload |
| JarvisSession.Session.PlayAudio | Garuda-AI-Assistant-main/Frontend/services/geminiService.ts:209-226 | the decode-and-schedule steps produce exactly `AudioStep` of the old state and keep the invariant |
| JarvisSession.Session.OnEnded | Garuda-AI-Assistant-main/Frontend/services/geminiService.ts:218-221 | the `ended` listener produces `Ended` of the old state and keeps the invariant |
| JarvisSession.Session.Interrupt | Garuda-AI-Assistant-main/Frontend/services/geminiService.ts:250-257 | the stop loop stops every source once in order, empties the set, resets the cursor and signals LISTENING |
| JarvisSession.Session.RunCall | Garuda-AI-Assistant-main/Frontend/services/geminiService.ts:233-244 | one call: notification, tool run, then the response carrying the call's id and name, unless the tool throws |
| JarvisSession.Session.RunToolCalls | Garuda-AI-Assistant-main/Frontend/services/geminiService.ts:232-245 | the loop appends exactly `BatchEvents` of the calls and reports whether no tool threw |
| JarvisSession.Session.ForwardTranscripts | Garuda-AI-Assistant-main/Frontend/services/geminiService.ts:197-205 | the user fragment, then the assistant fragment, are forwarded when present |
| JarvisSession.Session.AnswerToolCalls | Garuda-AI-Assistant-main/Frontend/services/geminiService.ts:229-246 | THINKING, then the batch, when the message has a function-call list |
| JarvisSession.Session.HandleFlags | Garuda-AI-Assistant-main/Frontend/services/geminiService.ts:248-257 | turn completion is reported before an interruption is handled |
| JarvisSession.Session.HandleMessage | Garuda-AI-Assistant-main/Frontend/services/geminiService.ts:196-258 | the handler produces exactly `Route` of the old state (fixed field order, abort on failure) and keeps the invariant |
| JarvisSession.Session.OnError | Garuda-AI-Assistant-main/Frontend/services/geminiService.ts:260 | a channel error is reported once and changes nothing else |
| JarvisSession.Session.Close | Garuda-AI-Assistant-main/Frontend/services/geminiService.ts:273 | `close()` asks the channel to close and changes nothing else |
| JarvisSession.Session.OnClose | Garuda-AI-Assistant-main/Frontend/services/geminiService.ts:262-266 | the tracks are stopped and each context is closed only if not closed yet; afterwards both are closed, each at most once in the whole trace |
| JarvisSession.CloseKeepsValid | Garuda-AI-Assistant-main/Frontend/services/geminiService.ts:264-265 | the guarded closes never close a context a second time |
| JarvisSession.Connect | Garuda-AI-Assistant-main/Frontend/services/geminiService.ts:150-270 | a missing or empty API key fails before any context is created; a denied microphone fails after both contexts are created; LISTENING precedes opening the channel |
| JarvisSession.RemoveKeepsDistinct | Garuda-AI-Assistant-main/Frontend/services/geminiService.ts:219 | deleting from a set of distinct sources leaves them distinct |
| JarvisSession.EndedKeepsInvariant | Garuda-AI-Assistant-main/Frontend/services/geminiService.ts:218-221 | `ended` keeps the sources distinct and created and closes nothing |
| JarvisSession.BatchReleaseFree | Garuda-AI-Assistant-main/Frontend/services/geminiService.ts:232-245 | a tool batch closes no audio context |
| JarvisSession.AudioStepExtends | Garuda-AI-Assistant-main/Frontend/services/geminiService.ts:209-226 | scheduling a chunk only appends events and adds a fresh source |
| JarvisSession.ToolPartExtends | Garuda-AI-Assistant-main/Frontend/services/geminiService.ts:229-246 | the tool step only appends events and keeps the sources |
| JarvisSession.FlagsPartExtends | Garuda-AI-Assistant-main/Frontend/services/geminiService.ts:248-257 | turn completion and interruption only append events and keep the invariant |
| SessionLaws.EnqueueSchedules | Garuda-AI-Assistant-main/Frontend/services/geminiService.ts:209-225 | for a non-empty even-length payload: SPEAKING first, the chunk starts at max(cursor, now), the cursor advances by its frame count, and the new source joins the set |
| SessionLaws.EnqueueCursor | Garuda-AI-Assistant-main/Frontend/services/geminiService.ts:211-224 | enqueue never moves the cursor back, leaves it at or after now, and a chunk arriving while now <= cursor starts at the cursor |
| SessionLaws.BackToBack | Garuda-AI-Assistant-main/Frontend/services/geminiService.ts:223-224 | a chunk arriving before the previous one ends starts exactly at its end, on a different source |
| SessionLaws.ThreeChunksBackToBack | Garuda-AI-Assistant-main/Frontend/services/geminiService.ts:211-224 | chunks of 1.0 s, 0.5 s and 2.0 s on an idle device start at 0, 1.0 s and 1.5 s and leave the cursor at 3.5 s |
| SessionLaws.UndecodablePayloadSchedulesNothing | Garuda-AI-Assistant-main/Frontend/services/geminiService.ts:210-213 | an odd-length or empty payload signals SPEAKING and moves the cursor, then schedules nothing |
| SessionLaws.RemoveLength | Garuda-AI-Assistant-main/Frontend/services/geminiService.ts:219 | deleting a member from distinct sources shrinks the set by exactly one |
| SessionLaws.EndedRemovesSource | Garuda-AI-Assistant-main/Frontend/services/geminiService.ts:218-221 | the ended source leaves the set, the set shrinks by one if it was there, and LISTENING is signalled exactly when the set is then empty |
| SessionLaws.InterruptStopsEverySource | Garuda-AI-Assistant-main/Frontend/services/geminiService.ts:250-257 | every queued source is stopped exactly once and no other; the set is empty, the cursor 0, and LISTENING is last |
| SessionLaws.ReturningCallExchanges | Garuda-AI-Assistant-main/Frontend/services/geminiService.ts:233-244 | a call whose tool returns is notified and then answered with its id and name |
| SessionLaws.BatchAnswersEveryCall | Garuda-AI-Assistant-main/Frontend/services/geminiService.ts:232-245 | if no tool throws, notifications and responses alternate: call i is notified at 2i and answered with its id and name at 2i + 1 |
| SessionLaws.BatchStopsAtFirstThrow | Garuda-AI-Assistant-main/Frontend/services/geminiService.ts:232-245 | the first throwing call is notified, never answered, and ends the batch |
| SessionLaws.BatchChangesNoState | Garuda-AI-Assistant-main/Frontend/services/geminiService.ts:232-245 | a batch signals no state change |
| SessionLaws.ThinkingOncePerBatch | Garuda-AI-Assistant-main/Frontend/services/geminiService.ts:229-230 | a function-call list, even an empty one, signals THINKING exactly once, before its calls |
| SessionLaws.OddAudioAbortsMessage | Garuda-AI-Assistant-main/Frontend/services/geminiService.ts:208-213 | an odd-length payload rejects the handler after SPEAKING: no source, no tool, no turn completion, no interruption |
| SessionLaws.ThrowingToolAbortsMessage | Garuda-AI-Assistant-main/Frontend/services/geminiService.ts:235-257 | a throwing tool's notification is the message's last effect; turn completion and interruption are skipped |
| SessionLaws.LastThrows | Garuda-AI-Assistant-main/Frontend/services/geminiService.ts:232-235 | a batch that stops at call k ends with call k's notification |
| SessionLaws.CursorMonotoneWithoutInterrupt | Garuda-AI-Assistant-main/Frontend/services/geminiService.ts:196-258 | without an interruption, handling a message never moves the cursor back |
| AppModel.Trim | Frontend/App.tsx:19 | the trimmed text neither starts nor ends with whitespace |
| AppModel.TrimIsMiddle | Frontend/App.tsx:19 | `trim` removes only leading and trailing whitespace: the result is a contiguous middle of the text with only whitespace before and after it |
| AppModel.TrimEmptyIffBlank | Frontend/App.tsx:19 | `text.trim()` is empty exactly when every character is ECMAScript whitespace |
| AppModel.Logged | Frontend/App.tsx:18-22 | the old log is kept as a prefix and `{author, text}` is appended if and only if the text is not blank |
| AppModel.LoggedKeepsNonBlank | Frontend/App.tsx:18-22 | logging keeps every message non-blank |
| AppModel.LoggedVisible | Frontend/App.tsx:18-22 | a text with a visible character is always appended |
| AppModel.FixedTextsVisible | Frontend/App.tsx:65-75 | the two fixed assistant messages are not blank, so they are always logged |
| AppModel.LastAtMost | Frontend/App.tsx:25 | `slice(-n)` for positive n keeps the last n elements, or all if fewer |
| AppModel.RecentToolCalls | Frontend/App.tsx:24-26 | at most 7 entries, the new one last, after the previous last (up to) six in order |
| AppModel.ToolCallEntry | Frontend/App.tsx:60 | the entry is the tool sign, the tool name, the arrow and the arguments' JSON, in that order |
| AppModel.App.constructor | Frontend/App.tsx:10-16 | IDLE, empty logs and buffers, no session |
| AppModel.App.AddMessage | Frontend/App.tsx:18-22 | the log becomes `Logged` of the old log; nothing else changes |
| AppModel.App.AddToolCall | Frontend/App.tsx:24-26 | the tool log becomes `RecentToolCalls` of the old one and stays within 7 |
| AppModel.App.OnStateChange | Frontend/App.tsx:42 | the state is set; nothing else changes |
| AppModel.App.OnUserTranscription | Frontend/App.tsx:44-46 | the fragment is appended to the user buffer only |
| AppModel.App.OnJarvisTranscription | Frontend/App.tsx:48-50 | the fragment is appended to the assistant buffer only |
| AppModel.App.OnTurnComplete | Frontend/App.tsx:52-57 | the user buffer, then the assistant buffer, are logged if non-blank, and both are reset to "" |
| AppModel.App.OnToolCall | Frontend/App.tsx:59-61 | the formatted entry joins the tool log |
| AppModel.App.OnError | Frontend/App.tsx:63-68 | exactly one assistant message is appended, the state is IDLE and the session reference is dropped |
| AppModel.App.ToggleSession | Frontend/App.tsx:28-39 | with a session: close it once (that session stays valid, its cursor, sources and contexts unchanged, so `onclose` can follow), drop it, IDLE, both logs emptied, buffers untouched; without: CONNECTING |
| AppModel.App.ConnectResolved | Frontend/App.tsx:71 | the resolved session is stored |
| AppModel.App.ConnectRejected | Frontend/App.tsx:72-76 | IDLE and exactly one "Failed to start session." message; the session reference is left as it was (another attempt may have stored one) |
| AppModel.App.Deliver | Frontend/App.tsx:41-69 | each session event has exactly the effect of its callback on every field (state, both logs, both buffers, session reference); other events leave the component unchanged |

## Left out

- Base64 (`atob`/`btoa`, RFC 4648 section 4): the model starts and ends at the binary string they produce and consume.
- `atob` throwing on a malformed base64 payload is not modelled: like an odd byte count, that throw would reject the message handler after SPEAKING and the cursor update (geminiService.ts lines 210-213), but the model's audio payload is already the decoded binary string.
- `encodeURIComponent` and `JSON.stringify` are function parameters (`encodeComponent`, `stringify`); the tool result's JSON is written out as the two strings it can be.
- Typed-array byte order: `Int16Array` views use the host's byte order; the model fixes little-endian, the order of the wire format and of every common host.
- AudioCodec.DecodeAudioData: requires at least one channel; the source calls it only with one.
- AudioCodec.ChannelOf: a fractional `frameCount` is rounded down as `createBuffer` does; the writes past the end of the channel buffer that the extra loop iteration makes are dropped by the typed array and not modelled.
- Float32 rounding of captured samples and of `x * 32768`, and non-finite samples (NaN, infinities): samples are exact reals.
- `audioBuffer.duration` as a float: durations are integer ticks.
- The remote channel, `getUserMedia`, `AudioContext`, the script processor and the gain node: represented only by events in the session's trace; `Connect` takes whether the microphone and the channel succeed as parameters.
- Asynchronous interleaving: each message is handled to completion before the next; the suspensions in `onmessage` and the race between `onError` and storing the resolved session are not modelled.
- Tool arguments are string-valued maps; non-string arguments are not modelled.
- A transcription object without `text`: the fragment is a string.
- The system prompt text, `console.error` logging and the UI components.


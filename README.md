# CAINode correlation core in Dafny

This project models the logic at the centre of the CAINode client (`index.js`). Everything else in that file is HTTP glue. The modelled parts are:

- **Wire** (`wire.dfy`): inbound socket messages after JSON decoding. It also holds the two completion tests that the correlator evaluates inside its `try`, and the keepalive filter of `open_ws`. That filter answers a `{}` probe with `{}` and re-emits every other message on the client.
- **Correlator** (`correlator.dfy`): `send_ws`. Each call attaches its own `message` listener to a shared socket, sends one frame, and checks every later frame. A frame completes the call when:
  - JSON and a wait type are not both set: the first frame completes it;
  - wait type 1: the test runs on `turn`;
  - wait type 2: the test runs on `push.pub.data.turn`.
  With an AI-reply wait, a match also needs a non-human author. Frames whose shape probe throws are buffered under `append_array`. An optional timer detaches the listener and rejects with `"Timeout exceeded!"`.
  - The `Connection` class holds the frames written to the socket, the messages re-emitted on the client, and every call made on the socket.
  - `Deliver` runs the keepalive handler first. Then every call steps on the frame, independently of the others.
  - `Expire` stands in for the timer.
- **Session** (`session.dfy`): the `join_type` mode (0 idle, 1 single-character chat, 2 group room) and the current chat and character ids. The transitions are character and group `connect`/`disconnect` and `logout`. The module also has the id and timeout fallback of `send_message`, and the `send_ws` mode that `send_message` picks.
- **MutedWords** (`muted_words.dfy`): `add_muted_words` and `remove_muted_words`. These walk the words, apply each one to the `bannedWords` set in place, and throw at the first bad word.
- **Voice** (`voice.dfy`): `is_speech`, the silence test on 16-bit little-endian PCM, and the speaking flag and current candidate of a voice call.

Points where the code's behaviour is easy to misread:

- Every `send_ws` call has its own listener, so one frame is offered to every pending call and can settle several of them (`OneFrameSettlesMany`). It is not consumed by the first call only.
- The keepalive filter hides `{}` from the client-level emitter only. `send_ws` listeners still see it: a one-shot call resolves with it, and an accumulating call buffers it (`KeepaliveReachesListeners`).
- There is no connection-closed failure. A call whose socket closes settles only through its timer, if it has one.
- The timer is armed when `timeout_ms != 0`, not only when it is positive.
- Group `connect` refuses only when already in a room. It runs from single-character mode and leaves the character id behind.

## Model

| member | source | states |
|---|---|---|
| `Wire.ProbeAiReply` | index.js:76-94 | The AI-reply test matches exactly when the turn has an author that is not human and a final first candidate. It throws exactly when the turn or author is missing, or when the author is not human and there is no first candidate. A human author short-circuits before `candidates` is read. |
| `Wire.ProbeFinal` | index.js:96-115 | The finality test matches exactly when the first candidate is final. It throws exactly when the turn or its first candidate is missing, and never looks at the author. |
| `Wire.OnSocketMessage` | index.js:60-64 | `{}` is answered by exactly one `{}` and is not re-emitted. Every other message is re-emitted unchanged and nothing is sent. |
| `Wire.KeepaliveStream` | index.js:60-64 | Over any stream, the number of `{}` written back equals the number of probes. No probe reaches the client emitter. Every other message reaches it, unchanged and in arrival order, and the re-emitted count is the stream length minus the probes. |
| `Correlator.Start` | index.js:70-72 | A new call has an empty buffer and an attached listener. |
| `Correlator.Inspect` | index.js:74-77 | A wait type other than 1 or 2 matches no `case` and never completes or throws. |
| `Correlator.Step` | index.js:72-125 | A settled call ignores frames. The buffer is either unchanged or grows by the current frame, and only for a listening call with `append_array`. A resolution yields the frame alone or the buffer followed by the frame. A frame never rejects. |
| `Correlator.TimedOut` | index.js:127-130 | The timer rejects with "Timeout exceeded!" exactly when the call is still listening and `timeout_ms != 0`. Otherwise nothing changes, because the timer was cleared or never armed. |
| `Correlator.StepAll` | index.js:72 | Every call on the socket sees the frame, and each call steps on it independently of the others. |
| `Correlator.AiReplyCompletion` | index.js:76-94 | With an AI-reply wait of type 1 or 2, a frame completes the call exactly when the inspected turn (`turn`, or `push.pub.data.turn`) has a non-human author and a final first candidate. The result is that frame alone, even under `append_array`. |
| `Correlator.FinalCompletion` | index.js:96-115 | Without an AI-reply wait, a frame completes the call exactly when the first candidate is final. The result is the buffer followed by the frame under `append_array`, and the frame alone otherwise. |
| `Correlator.UnknownWaitTypeNeverCompletes` | index.js:76-77 | With JSON and a wait type outside 0, 1 and 2, no stream of frames changes the call. |
| `Correlator.OneShotCompletion` | index.js:120-124 | Without JSON, or with wait type 0, the first frame resolves the call with that frame. |
| `Correlator.KeepaliveReachesListeners` | index.js:60-64 | A `{}` probe resolves a one-shot call. An accumulating wait of type 1 or 2 buffers the probe. |
| `Correlator.SettledIsFinal` | index.js:80-81 | Once settled, a call keeps its outcome over every later stream, and its timer no longer fires. So each call settles at most once. |
| `Correlator.BufferIsThrownFrames` | index.js:117-119 | While a call listens, its buffer is the frames whose probe threw, in arrival order, under `append_array`. Without `append_array` the buffer stays unchanged. Well-formed frames that are not final are dropped. |
| `Correlator.ResolvedBatchOrder` | index.js:101-103 | An accumulating call without an AI-reply wait resolves with every earlier thrown frame, in arrival order, followed by the matching frame. |
| `Correlator.PartialThenFinal` | index.js:78-83 | Two partial turns leave a single-chat generation wait untouched. The final turn then resolves it with that frame alone. |
| `Correlator.ListenerCountAppend` | index.js:72 | Registering a call adds exactly one listener. |
| `Correlator.ListenerCountSettle` | index.js:127-130 | Settling a listening call removes exactly one listener. |
| `Correlator.ListenerCountStepAll` | index.js:72-125 | A frame never adds a listener. |
| `Correlator.OneFrameSettlesMany` | index.js:120-124 | One frame resolves two pending one-shot calls and removes both listeners. |
| `Correlator.Connection.Open` | index.js:49-66 | Opening sends the connect/subscribe pair exactly when a user id is given. Nothing is emitted or pending. |
| `Correlator.Connection.SendWs` | index.js:68-131 | A call appends one listening operation, writes its frame, returns the call's index and adds one listener. |
| `Correlator.Connection.Deliver` | index.js:60-125 | The sent and emitted sequences follow the keepalive rule. Every call steps on the frame. The listener count does not grow. |
| `Correlator.Connection.Expire` | index.js:127-130 | Only the expired call changes, as `TimedOut` says. The listener count drops by one exactly when it is rejected. |
| `Session.RoomReplyIsFirstFrame` | index.js:2069 | Room subscribe and unsubscribe calls resolve with the first frame on the socket. |
| `Session.Client.constructor` | index.js:147-157 | The client starts idle with empty chat and character ids. |
| `Session.Client.CharacterConnect` | index.js:1304-1342 | Throws "Please login first." without a token, and throws unless `join_type` is idle. It creates a chat (`create_chat`) when the first lookup has no `chats`. It then enters single mode on the first listed chat with the given character id. With no chat found it throws; the fresh chat id may already be stored while the mode stays idle. |
| `Session.Client.CharacterDisconnect` | index.js:1351-1360 | Throws unless logged in and in single mode, and changes nothing when it throws. Otherwise it resets to idle, empties both ids and returns true. |
| `Session.Client.GroupConnect` | index.js:2065-2074 | Throws only without a token or when already in a room. Otherwise it subscribes and returns the reply. A reply with `error` leaves the mode and ids untouched. Any other reply sets room mode and the chat id. |
| `Session.Client.GroupDisconnect` | index.js:2083-2092 | Throws unless logged in and in a room. Otherwise it unsubscribes from the current room, resets to idle and empties the chat id, whatever the reply. |
| `Session.Client.Logout` | index.js:3564-3583 | Without sockets it returns false and changes nothing. Otherwise it leaves the current mode through its disconnect, whose errors propagate. It then ends idle, with no token and no sockets. |
| `Session.ResolveTarget` | index.js:1406-1422 | An explicit id wins, then the session's id, else a throw (character id checked first). A non-number timeout throws. A negative timeout becomes 0. An omitted or non-object option other than `null` takes the session ids with timeout 0. |
| `Session.ExplicitIdsWin` | index.js:1413-1420 | With both ids given, the session ids do not matter. The call succeeds exactly when the timeout is a number. |
| `Session.SendMessageMode` | index.js:1478 | `send_message` uses JSON and no accumulation, and passes the resolved timeout. A manual turn is one-shot. A generated turn waits for an AI reply of type 1. |
| `Session.SendMessageCompletion` | index.js:1478 | A manual turn completes on any first frame. A generated turn completes only on a final first candidate by a non-human author. |
| `MutedWords.Split` | index.js:547 | `split(' ')` yields at least one piece, and no piece contains a space. |
| `MutedWords.SplitJoin` | index.js:547 | Joining the split pieces with spaces gives back the original string. |
| `MutedWords.Check` | index.js:541-549 | A word fails exactly when it is empty, or, for the array form only, when it contains a space. |
| `MutedWords.FirstInvalid` | index.js:540-552 | Every word before the returned index passes, and the word at it (if any) fails. |
| `MutedWords.TextNeverNotSingleWord` | index.js:546-552 | The string form can only fail with an empty word. |
| `MutedWords.AfterAdd` | index.js:540-552 | The set only grows. Every word before the first bad one is added, and every word the set gains is one of those, so nothing from the first bad word onward is added. |
| `MutedWords.AfterRemove` | index.js:572-584 | The set only shrinks, every word before the first bad one is absent, and every removed word is one of those. |
| `MutedWords.AddIdempotent` | index.js:544 | Adding the same words twice equals adding them once. |
| `MutedWords.RemoveUndoesAdd` | index.js:576 | Removing words that were just added, when none was present before, restores the set. |
| `MutedWords.User.AddMutedWords` | index.js:537-557 | Without a token it throws "Please login first." and leaves the set alone. Otherwise the set gains the words before the first bad one. The call throws that word's message, or returns the set sent to `update_settings`. |
| `MutedWords.User.RemoveMutedWords` | index.js:569-589 | Without a token it throws "Please login first." and leaves the set alone. Otherwise the set loses the words before the first bad one. The call throws that word's message, or returns the set sent to `update_settings`. |
| `Voice.SampleAsWritten` | index.js:2967-2969 | The source's decode agrees with the 16-bit decode except at high byte 128, where it yields 32768 plus the low byte. |
| `Voice.Sample` | index.js:2967-2969 | The two's-complement decode stays within the 16-bit range. |
| `Voice.SampleRoundTrip` | index.js:2967-2969 | Decoding the low and high byte of any 16-bit value gives the value back. |
| `Voice.SampleBytes` | index.js:2967-2969 | Encoding a decoded byte pair gives back the same bytes. |
| `Voice.IsSpeech` | index.js:2963-2977 | Returns true exactly when some complete byte pair, as the source decodes it, exceeds the threshold in magnitude. A trailing odd byte never counts, and the closing silence test always yields false. |
| `Voice.SampleAsWrittenDiffers` | index.js:2967 | Bytes (0, 128) decode to 32768 instead of -32768. The chunk [255, 128] counts as speech at threshold 32600 although its sample is -32513. |
| `Voice.SpeechAgreesOffBoundary` | index.js:2967-2968 | When no high byte is 128, the source's test and the 16-bit test agree. |
| `Voice.Speaker.constructor` | index.js:2870-2878 | A new call is not speaking and has no candidate. |
| `Voice.Speaker.OnData` | index.js:2893-2906 | `speechStarted` stores the event's candidate and raises the flag. `speechEnded` clears both. Other events change nothing. |
| `Voice.Speaker.InterruptCall` | index.js:3014-3026 | With no candidate, or an empty one, it returns "Character is still not talking." and changes nothing. Otherwise it discards that candidate and forgets it, and the speaking flag is left as it was. |

## Findings

| source | as written | input that shows it | evidently intended | confidence | as-written member | corrected member |
|---|---|---|---|---|---|---|
| index.js:2967 | `chunk[i + 1] > 128` picks the negative branch, so a high byte of 128 decodes as +32768 plus the low byte | chunk [255, 128], threshold 32600: the sample is -32513 (below the threshold in magnitude), but `is_speech` decodes 33023 and returns true | little-endian signed 16-bit decode, negative for high bytes 128..255 (`>= 128`) | medium, not executed | `Voice.SampleAsWrittenDiffers` | `Voice.SampleRoundTrip` |

## Left out

- The network: `https_fetch` and every REST call built on it. The replies that the session calls read (the two `chats/recent` lookups, the `update_settings` result) are parameters or are not modelled.
- The real `WebSocket`, `EventEmitter` and timer. A socket is the `Connection` class: frames sent, messages re-emitted, calls made. A timer is the explicit `Expire` event; wall-clock time and its ordering with frames are up to the caller of the model.
- `JSON.parse` of raw text. Frames arrive already decoded. A non-JSON message would throw outside the `try`, which the model does not cover. Truthiness of `is_human`, `is_final` and `error` is a `bool`. A missing or null link of a probed path is `None`.
- `Correlator.Mode`: `wait_json_prop_type` is modelled as the integer the source switches on, with 0 for every falsy value. Values like `"abc"`, which are truthy but not a number, behave like an unknown integer type. Fractional and `NaN` timeouts are not modelled.
- `Session.Client.CharacterConnect`: the `create_chat` call is awaited to completion. Its own correlation, a type 1 wait with accumulation, is covered by the correlator lemmas, not threaded through this method. The `resurrect` request is HTTP and not modelled.
- `Session.Client.GroupConnect`, `Session.Client.GroupDisconnect`: the awaited reply is a parameter. `RoomReplyIsFirstFrame` states which frame it is.
- Random ids (`generateRandomUUID`, the `request_id` prefixes, `turn_key`) are opaque parameters or not modelled. The full JSON bodies of `create_chat` and `create_turn` are not rendered; the model records only the ids they carry.
- `send_message` is modelled through its id fallback and its `send_ws` mode. Building and sending its frame is the correlator's `SendWs`. The other `send_ws` callers (regenerate, edit, delete, pin, group messages) are not modelled one by one; their argument combinations are all instances of `Correlator.Mode`.
- `GroupChat_Class.send_message` assigns to an undeclared variable and throws a `ReferenceError` in module code, so it has no happy path to model.
- The muted-word store is a `set`, so the insertion order of the array sent to `update_settings` is not modelled.
- Voice: the audio streaming, the `@livekit/rtc-node` calls, `Voice_Class.connect`, `input_write` and `disconnect` are foreign libraries and real-time media. The speaking flag starts `undefined` in the source and is modelled as `false`.
- The `generate_token` email-polling loop is HTTP polling with wall-clock waits.
- `Session.Client.CharacterConnect`, `Session.Client.CharacterDisconnect`, `Session.Client.GroupConnect`, `Session.Client.GroupDisconnect`, `Session.Client.Logout`: each is modelled as one atomic step, with no interleaving at its `await`s. The source checks `join_type` before awaiting and writes it after (index.js:1306 and 1337-1338, 2067 and 2071-2072, 2085 and 2089-2090). Two overlapping `connect` calls started while idle therefore both pass the check, and the later one's ids win. The model cannot reach that state, and its contracts hold only for calls that do not overlap.
- `Session.ResolveTarget`: a `null` `manual_opt` has `typeof` "object", so the fallback is skipped and reading `manual_opt.char_id` throws a `TypeError` (index.js:1413). `Option<ManualOpt>` cannot express `null`, so this path is not modelled.
- `MutedWords.User.AddMutedWords`, `MutedWords.User.RemoveMutedWords`: on success the source returns the HTTP reply of `update_settings`, not the set. `update_settings` then calls `refresh_settings`, which replaces `bannedWords` with the server's copy (index.js:398-400, 419). The model returns the set it sends and ends with that set; the server's copy is not modelled.
- `Voice.IsSpeech`: the default argument `threshold = 1000` is not modelled; every caller of the model passes the threshold.
- The text of the room subscribe and unsubscribe frames (index.js:2069, 2087) is not rendered. `Session.Request` records the room id each one carries.
- `Voice.Speaker.InterruptCall`: modelled as one atomic step. The source tests `current_candidate_id` (index.js:3015), awaits the discard request (index.js:3016), and then writes `null` (index.js:3024). A `speechStarted` event (index.js:2895-2897) arriving during that await stores a new candidate, which the write then erases without discarding it. The model cannot reach that state; its contract holds only when no event arrives during the call.
- `Session.ResolveTarget`: the source writes the fallback ids and the clamped timeout back into the caller's `manual_opt` object (index.js:1414, 1418, 1421). The model returns a fresh `Target` and leaves the option unchanged. A caller who reuses one options object therefore keeps the first call's session ids on later calls, even after the session changes; the model does not capture this in-place update or the aliasing behind it.
- Other writers of the session fields are not modelled: `create_new_conversation` overwrites `current_chat_id` in single-character mode (index.js:1609-1611), `set_conversation_chat` overwrites it (index.js:2707), and `group_chat.delete` unsubscribes from the room but leaves `join_type` at 2 (index.js:2129).
- Login and the opening of the two sockets. A `Session.Client` starts in the state login leaves: a token, sockets, idle mode.

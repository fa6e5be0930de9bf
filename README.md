# Realtime console client: session bookkeeping and timer

This project models, in Dafny, the client-side logic of a browser console that talks to a realtime
voice model over a WebRTC data channel, and in which captions of camera frames arrive as
`log.update` events and are turned into a system prompt.

Two components are modelled:

- `client/components/App.jsx`: the session record (`isSessionActive`, the event log kept newest
  first, whether a data channel and a peer connection exist) and the handlers that change it:
  - `sendClientEvent`: stamps `event_id` when absent, transmits, backfills `timestamp` when absent
    and prepends to the log, or drops the message when there is no channel.
  - `sendTextMessage`.
  - `updateSystemPrompt`: threshold of two entries, `slice(-2)`, caption cleaning, `"\n\n"` join,
    and the system-prompt template.
  - The data channel's `message` and `open` listeners.
  - `stopSession`.
- `client/components/Timer.jsx`: `formatTime` (minutes and seconds, each zero-padded to two places)
  and the elapsed-seconds counter that ticks while the session is active and resets when it ends.

Layout:

- `Events.dfy`: the records on the channel, the JavaScript truth test on optional string fields
  (`Present`: a missing or empty string counts as absent), and the id and timestamp stamping.
- `Captions.dfy`: the two global replacements, the join, the context of the last two array entries
  and the prompt template.
- `SessionModel.dfy`: every handler as a pure transition over a `State` record that also records
  what went out on the wire, plus traces of handler steps (`Run`) and the invariants they keep.
- `App.dfy`: class `Session`, whose fields the handlers update in place. Each method is proved to
  produce exactly the state the corresponding `SessionModel` transition gives.
- `Clock.dfy`: decimal digits, `padStart`, `formatTime` with a reader that inverts it, and class
  `ElapsedTimer`.

Fresh ids (`crypto.randomUUID()`) and clock readings (`toLocaleTimeString()`) are parameters,
typed as non-empty strings. Inbound events arrive already parsed.

Facts of the code that the model keeps as written:

- The log is newest first, so `slice(-2)` (client/components/App.jsx:23) takes the two OLDEST
  entries, although the comment at client/components/App.jsx:18 speaks of the latest logs.
  - Once the log holds two entries, the caption of an arriving `log.update` never reaches the
    prompt (`SessionModel.OnMessagePromptIgnoresArrival`, `Captions.ContextIgnoresNewest`).
  - With exactly two entries, the newer caption comes first in the context
    (`SessionModel.TwoCaptionScenario`).
- `stopSession` dereferences `peerConnection.current` (client/components/App.jsx:156) before it
  tests it (162). It therefore fails when there is no peer connection, and a second call after a
  successful one fails (`SessionModel.StopNotIdempotent`).
- A message dispatched without a channel is dropped: it is neither sent nor logged
  (client/components/App.jsx:185-190).

## Model

| member | source | states |
|---|---|---|
| Events.StampId | client/components/App.jsx:175 | the result always carries an id; an existing non-empty `event_id` is kept, otherwise the fresh one is used; no other field changes |
| Events.BackfillTimestamp | client/components/App.jsx:181-183 | the result always carries a timestamp; an existing non-empty one is never overwritten; no other field changes |
| Events.StampIdIdempotent | client/components/App.jsx:175 | stamping an already stamped message changes nothing |
| Events.BackfillIdempotent | client/components/App.jsx:219-221 | a backfilled timestamp survives a later backfill |
| Events.ConversationItem | client/components/App.jsx:195-207 | a `conversation.item.create` of the given role with exactly one `input_text` part holding the text, and no id or timestamp yet |
| Events.ResponseCreateEvent | client/components/App.jsx:210 | a `response.create` record with no item, id or timestamp |
| Captions.RemoveDoubleStar | client/components/App.jsx:28 | the `**` replacement never lengthens the text, keeps a first character that is not `*`, and leaves no two adjacent asterisks |
| Captions.RemoveStar | client/components/App.jsx:28 | the `*` replacement leaves no asterisk and never lengthens the text |
| Captions.RemoveStarAppend | client/components/App.jsx:28 | removing asterisks distributes over concatenation |
| Captions.RemoveStarKeepsOthers | client/components/App.jsx:28 | every character other than `*` occurs as often after removal as before |
| Captions.RemoveStarNoStar | client/components/App.jsx:28 | a text without asterisks is unchanged by the replacement |
| Captions.CleanIsRemoveStar | client/components/App.jsx:28 | the two replacements in sequence equal the removal of every asterisk |
| Captions.CleanSpec | client/components/App.jsx:26-28 | a cleaned caption has no `*`, keeps every other character with its multiplicity, and equals the caption when it had no markup |
| Captions.Clean | client/components/App.jsx:28 | a cleaned caption has no `*` and is never longer than the caption; `Captions.CleanSpec` adds that every other character is kept |
| Captions.Join | client/components/App.jsx:29 | `join` of no parts is empty; the result starts with the first part, followed by the separator when there are more parts; two parts give first, separator, second |
| Captions.CaptionText | client/components/App.jsx:26 | a present caption is used as is; a missing or empty one becomes `''` |
| Captions.CleanedCaptions | client/components/App.jsx:24-28 | one cleaned caption per entry, in entry order |
| Captions.Context | client/components/App.jsx:23-29 | the cleaned captions of exactly the last two array elements, in array order, separated by a blank line; no asterisk in the result |
| Captions.ContextIgnoresNewest | client/components/App.jsx:23 | on a newest-first log of two or more entries, prepending an event leaves the context unchanged |
| Captions.ContextOfTwo | client/components/App.jsx:23-29 | for a two-entry log, the newer caption comes first and the older second |
| Captions.PromptText | client/components/App.jsx:39-49 | the prompt is the fixed head, the context exactly once, and the fixed tail |
| Captions.SystemPromptFor | client/components/App.jsx:20-53 | no prompt for fewer than two entries; otherwise a system-role `conversation.item.create` with one text part embedding the context, no id and no timestamp |
| Captions.CleanBoldExample | client/components/App.jsx:28 | `**A cat**` cleans to `A cat` |
| Captions.CleanItalicExample | client/components/App.jsx:28 | `A dog on a *rug*` cleans to `A dog on a rug` |
| Captions.ExampleContext | client/components/App.jsx:24-29 | the two sample captions, newer first, give the context `A dog on a rug`, blank line, `A cat` |
| SessionModel.Initial | client/components/App.jsx:12-15 | inactive, empty log, no channel, no peer connection, nothing sent |
| SessionModel.Dispatch | client/components/App.jsx:172-191 | without a channel nothing changes; with one, exactly one payload is sent and appended to the traffic (the message with only its id stamped), exactly one entry is prepended to the unchanged log (that payload with its timestamp backfilled from the clock reading `now` when absent, never overwritten), and the flags stay as they were |
| SessionModel.SendText | client/components/App.jsx:194-211 | without a channel nothing changes; with one, the log and the traffic each grow by exactly two and the flags are kept; `SessionModel.SendTextOrder` states the order and contents |
| SessionModel.SendTextOrder | client/components/App.jsx:194-211 | without a channel nothing happens; with one, two payloads go out in order, the user item carrying the text and then `response.create`; `response.create` heads the log and the user item is second above the old log |
| SessionModel.UpdateSystemPrompt | client/components/App.jsx:19-55 | below two entries, or without a channel, the state is untouched; otherwise exactly one entry is logged and one payload sent; the flags are kept |
| SessionModel.UpdateSystemPromptSpec | client/components/App.jsx:19-55 | below two entries the state is untouched; otherwise, with a channel, one system-role item embedding the context of the last two entries is sent and heads the log |
| SessionModel.OnMessage | client/components/App.jsx:217-231 | every inbound event adds one log entry; only a `log.update` on a non-empty log with a channel adds a second entry and sends one payload; otherwise nothing is sent; the flags are kept |
| SessionModel.OnMessageOther | client/components/App.jsx:217-224 | an event other than `log.update` is prepended with its timestamp backfilled only if absent, and nothing is sent |
| SessionModel.OnMessageFirstLog | client/components/App.jsx:20 | the first `log.update` on an empty log is only prepended: one entry is below the threshold |
| SessionModel.OnMessageLogUpdate | client/components/App.jsx:223-230 | a `log.update` on a non-empty log is prepended, then a system prompt built from the list that includes it is sent and placed above it; the rest of the log is unchanged |
| SessionModel.OnMessagePromptIgnoresArrival | client/components/App.jsx:23 | once the log already holds two entries, the prompt sent for an arriving `log.update` uses the context of the two oldest entries, not the new caption |
| SessionModel.OnOpen | client/components/App.jsx:234-237 | the session becomes active and the log is emptied; channel, peer connection and traffic are kept |
| SessionModel.Stop | client/components/App.jsx:151-169 | fails exactly when there is no peer connection; otherwise the session is inactive, with no channel and no peer connection, and the log and traffic are kept |
| SessionModel.StopNotIdempotent | client/components/App.jsx:156 | a second stop after a successful one fails |
| SessionModel.AttachChannel | client/components/App.jsx:78-79 | only the channel flag is set |
| SessionModel.AttachPeer | client/components/App.jsx:147 | only the peer-connection flag is set |
| SessionModel.DispatchWellStamped | client/components/App.jsx:175-183 | a dispatch keeps every logged entry timestamped and every sent payload carrying an id |
| SessionModel.InboundWellStamped | client/components/App.jsx:219-230 | the `message` listener keeps every logged entry timestamped and every sent payload carrying an id |
| SessionModel.ApplyWellStamped | client/components/App.jsx:151-237 | every handler keeps the timestamp and id invariant |
| SessionModel.RunWellStamped | client/components/App.jsx:151-237 | the timestamp and id invariant holds along every sequence of handler calls |
| SessionModel.DispatchExtends | client/components/App.jsx:178-184 | a dispatch only prepends to the log and only appends to the traffic |
| SessionModel.UpdateSystemPromptExtends | client/components/App.jsx:19-55 | `updateSystemPrompt` only prepends to the log and only appends to the traffic |
| SessionModel.InboundExtends | client/components/App.jsx:223-230 | the `message` listener only prepends to the log and only appends to the traffic |
| SessionModel.ApplyExtends | client/components/App.jsx:151-237 | every handler only appends to the traffic, and every handler except `open` only prepends to the log |
| SessionModel.RunPrepends | client/components/App.jsx:184 | along any sequence of handler calls without an `open`, the earlier log stays intact as the tail of the later one |
| SessionModel.RunSentGrows | client/components/App.jsx:178 | along any sequence of handler calls, what was sent stays as the prefix of the later traffic |
| SessionModel.FirstCaptionState | client/components/App.jsx:217-237 | after the channel is created and opened, a first caption leaves a one-entry log and nothing sent |
| SessionModel.SecondCaption | client/components/App.jsx:223-228 | a second caption on a one-entry log sends exactly one system prompt, built from the log with the caption prepended |
| SessionModel.TwoEntryContext | client/components/App.jsx:23-29 | for the two stamped captions, the context is the newer caption, a blank line, then the older one |
| SessionModel.TwoCaptionRun | client/components/App.jsx:217-237 | channel created, opened, then two captions: exactly one payload is sent, a system prompt whose context is the newer caption, a blank line, then the older one |
| SessionModel.TwoCaptionScenario | client/components/App.jsx:19-55 | for the captions `**A cat**` then `A dog on a *rug*`, the one prompt sent embeds `A dog on a rug`, a blank line, `A cat` |
| App.Session.constructor | client/components/App.jsx:12-15 | the fields start as the initial session record |
| App.Session.SendClientEvent | client/components/App.jsx:172-191 | updates the fields in place exactly as `SessionModel.Dispatch`; without a channel nothing changes, with one the log gains exactly one entry in front of the old log |
| App.Session.SendTextMessage | client/components/App.jsx:194-211 | updates the fields exactly as the two dispatches of `SessionModel.SendText` |
| App.Session.UpdateSystemPrompt | client/components/App.jsx:19-55 | updates the fields exactly as `SessionModel.UpdateSystemPrompt` |
| App.Session.OnMessage | client/components/App.jsx:217-231 | updates the fields exactly as `SessionModel.OnMessage` |
| App.Session.OnOpen | client/components/App.jsx:234-237 | the session is active with an empty log, as `SessionModel.OnOpen` |
| App.Session.StopSession | client/components/App.jsx:151-169 | succeeds exactly when a peer connection exists, and then clears the three flags and keeps the log; on failure nothing changes |
| App.Session.AttachChannel | client/components/App.jsx:78-79 | the channel is recorded, as `SessionModel.AttachChannel` |
| App.Session.AttachPeerConnection | client/components/App.jsx:147 | the peer connection is recorded, as `SessionModel.AttachPeer` |
| Clock.DigitChar | client/components/Timer.jsx:27 | the digit character of a value below ten, whose value is that number |
| Clock.Decimal | client/components/Timer.jsx:27 | `toString()` of a non-negative integer: at least one digit, no leading zero, one digit exactly below 10 and at most two exactly below 100 |
| Clock.DecimalRoundTrip | client/components/Timer.jsx:27 | reading the digits of `toString()` back gives the number |
| Clock.ParseLeadingZero | client/components/Timer.jsx:27 | a leading zero does not change the value of a digit string |
| Clock.PadStart | client/components/Timer.jsx:27 | `padStart`: the result has the larger of the two lengths, ends with the input and is filled on the left; nothing is truncated |
| Clock.PadTwo | client/components/Timer.jsx:27 | padding to two places leaves two or more digits alone and puts one zero before a single digit |
| Clock.PadKeepsValue | client/components/Timer.jsx:27 | zero-padding keeps a digit string's value |
| Clock.Split | client/components/Timer.jsx:25-26 | the seconds field is below 60, and minutes times 60 plus seconds is the input |
| Clock.Field | client/components/Timer.jsx:27 | a padded field is at least two digits, exactly two below 100, and never starts with a zero when longer than two |
| Clock.FieldValue | client/components/Timer.jsx:27 | a padded field reads back as its number |
| Clock.FormatTime | client/components/Timer.jsx:24-28 | `formatTime`: at least five characters, digits before a colon and exactly two digits after it, with no leading zero beyond the padding |
| Clock.FormatTimeWidth | client/components/Timer.jsx:27 | below 6000 seconds the display has five characters with `:` at index 2 |
| Clock.FormatTimeRoundTrip | client/components/Timer.jsx:24-28 | reading a formatted time gives back exactly its minutes and seconds |
| Clock.FormatTimeFields | client/components/Timer.jsx:25-26 | the fields read from the display have seconds below 60 and give back the input as minutes times 60 plus seconds |
| Clock.FormatTimeZero | client/components/Timer.jsx:24-27 | zero seconds display as `00:00` |
| Clock.ElapsedTimer.constructor | client/components/Timer.jsx:4 | the timer starts inactive at 0 |
| Clock.ElapsedTimer.SessionActiveChanged | client/components/Timer.jsx:6-22 | becoming active keeps the count; becoming inactive resets it to 0; a stopped timer always reads 0 |
| Clock.ElapsedTimer.Tick | client/components/Timer.jsx:9-12 | while active, each tick adds exactly one second |
| Clock.ElapsedTimer.Display | client/components/Timer.jsx:30-34 | the rendered text is `formatTime` of the count, reads back as its minutes and seconds, has five characters below 6000 seconds, and is `00:00` while inactive |

## Left out

- `startSession` (client/components/App.jsx:57-148) is not modelled beyond `setDataChannel` and `peerConnection.current = pc`. Its token fetch, SDP offer and answer, `getUserMedia` and audio element are browser and network APIs.
- The two `sendClientEvent` calls inside `startSession` (client/components/App.jsx:123, 139) are not modelled. They run through the closure of the render in which `startSession` was created, where `dataChannel` is still null, so each only reaches the error branch.
- React's state batching and closures are not modelled. Handlers are sequential updates of one record. The `sendClientEvent` issued inside the `setEvents` updater of the `message` listener (client/components/App.jsx:223-230) is modelled as applied after that updater's prepend. React promises no such order for an update issued from inside an updater, and StrictMode may call the updater twice; neither effect is modelled.
- The null `latestLogs` case of `updateSystemPrompt` is not modelled: a Dafny sequence cannot be null, and the only caller passes an array.
- `console.error`, `JSON.stringify` of outgoing payloads and `JSON.parse` of incoming ones are not modelled. Records are compared as values. Payload fields the client never reads are not represented.
- App.Session.OnMessage: requires a channel, because the listener is attached only to a created channel. App.Session.OnOpen has the same requirement.
- App.Session.StopSession: a failed stop is modelled as `ok == false` with every field unchanged. The `dataChannel.close()` that the source performs before throwing (client/components/App.jsx:152-154) and the stopping of sender tracks are not modelled.
- SessionModel.Dispatch: assumes `dataChannel.send` (client/components/App.jsx:178) never throws. A channel that exists but is not open, before its `open` event or after a failed stop closed it (152-154), would throw before the prepend at 184; the model sends and logs the message in those cases too.
- SessionModel.Stop: the thrown TypeError is the `None` outcome. The model does not represent exceptions as such.
- Clock.ElapsedTimer.Tick: requires an active session, because the interval exists only while the session is active. A tick arriving after `clearInterval` is not modelled.
- The one-second period of the interval and the unmount cleanup are not modelled: time enters only as ticks.
- The JSX rendering, `Webcam.jsx`, `LogDeletionControl.jsx`, `GeminiControl.jsx` and `server.js` are not part of this model. They are media, UI and HTTP plumbing.

# Conversation and recording state of the chat client

The client is one React component, `App` in `src/App.jsx`. It talks to an assistant server over
one WebSocket. It keeps a numbered list of chat sessions, each with its own message history.
It sends typed prompts and recorded audio, and it shows the transcriptions and replies the
server sends back. A mic button drives a `MediaRecorder`, whose chunks become one audio blob
when recording stops.

This project models that state and its handlers in Dafny:

- `Text` covers the string operations the handlers depend on:
  - `trim()`, used to decide whether typed input is blank;
  - `split(",")` and its inverse `join`;
  - the decimal rendering of `${n}`.
- `SessionStore` covers the per-session history map:
  - the `setMessages` append updater and its frame condition;
  - message ids (`uuidv4()` is modelled as a counter, so ids are fresh by construction);
  - the `Chat k` session names;
  - how an entry is shown.
- `Protocol` covers the socket frames:
  - the inbound envelope and how `onmessage` routes it;
  - the `{ prompt, session_id }` and `{ audio, session_id }` outbound frames;
  - the `split(",")[1]` cut that takes the payload out of a data URL.
- `Recorder` covers two things:
  - the chunk buffer `ondataavailable` builds, and the blob `onstop` makes from it;
  - the two recording flags, with the mic button's three-way toggle and the pause, resume and stop transitions.
- `AppState` holds the `App` class:
  - its fields are the component's React state, plus the socket, modelled as an `open` flag and the log of frames sent on it;
  - it also holds the chunk buffer and the audio analysis context, which is a number plus the log of contexts closed so far;
  - each handler is a method with a `modifies` frame that names exactly the fields it changes;
  - every method keeps the invariant `Valid()`. It says four things:
    - session `k` is named `Chat k`;
    - the active session and every session with a history are listed;
    - message ids are unique and below the counter;
    - the buffer holds exactly the non-empty chunks received, no paused recorder is idle, and no analysis context is closed twice.

Where the code does less than one might expect, the model does what the code does:

- A send on a closed socket only logs an error. Nothing is sent and no state changes.
- New Chat does not check for duplicate names. The names are distinct anyway, and this is proved from their closed form.
- There is no send queue. An audio frame goes out only when the reader finishes, so a prompt sent in the meantime can overtake it. The model sends the audio frame at once.
- A reply that carries only a `video_url` is dropped.
- A reply or transcription lands in the session that is active when it arrives.

## Model

| member | source | states |
|---|---|---|
| Text.TrimStartSuffix | src/App.jsx:97 | trimming the start leaves a suffix that does not begin with whitespace, and only whitespace is dropped |
| Text.TrimEndPrefix | src/App.jsx:97 | trimming the end leaves a prefix that does not end with whitespace, and only whitespace is dropped |
| Text.TrimIsMiddle | src/App.jsx:97 | `trim()` returns a middle slice with all-whitespace margins on both sides, and its ends are not whitespace |
| Text.Trim | src/App.jsx:97 | `trim()` never lengthens its input; `TrimIsMiddle` states what it keeps |
| Text.IsBlank | src/App.jsx:97 | the input counts as blank, so `handleSend` sends nothing, exactly when it is empty or whitespace only |
| Text.TrimEmptyIffAllWhitespace | src/App.jsx:97 | `input.trim()` is the empty string exactly when the input is empty or whitespace only (both directions) |
| Text.Split | src/App.jsx:68 | `split` always yields at least one piece |
| Text.SplitPieces | src/App.jsx:68 | no piece contains the separator; there is exactly one piece iff the separator does not occur |
| Text.SplitWithoutSeparator | src/App.jsx:68 | a string without the separator splits into itself alone |
| Text.SplitAfterHead | src/App.jsx:68 | after a separator-free head and one separator, the head is the first piece and the rest splits on its own |
| Text.SplitJoin | src/App.jsx:68 | round trip: splitting the join of separator-free pieces gives the pieces back |
| Text.JoinSplit | src/App.jsx:68 | round trip: joining the pieces of a split gives the original string |
| Text.DigitChar | src/App.jsx:231 | a digit renders as the character between `0` and `9` whose distance from `0` is the digit's value |
| Text.Decimal | src/App.jsx:231 | the numeral is non-empty and all digits, with two or more digits exactly for numbers from 10 up |
| Text.DecimalValue | src/App.jsx:231 | `Decimal(n)` is the numeral of `n`: read back most significant digit first by the independent `NumeralValue`, it gives `n` again |
| Text.DecimalNoLeadingZero | src/App.jsx:231 | a numeral of two or more digits never starts with `0`, and only `0` itself starts with `0` |
| Text.DecimalInjective | src/App.jsx:231 | different numbers render as different numerals |
| SessionStore.MessagesOf | src/App.jsx:37 | `prev[s] \|\| []`: a session with a key reads as its stored history; the history is empty exactly when the session has no key or an empty entry |
| SessionStore.Append | src/App.jsx:78-84 | the updater gives the session a key, and its history grows by one entry, which is the new message, at the end |
| SessionStore.AppendFrame | src/App.jsx:34-49 | the append updater keeps the session's old history as a prefix, adds the message as its one new last entry, leaves every other session's history unchanged, and adds no key but the session's |
| SessionStore.AppendEachPerSession | src/App.jsx:34-49 | after any interleaving of appends, each session holds its old history followed by exactly the messages sent to it, in call order |
| SessionStore.AppendFreshId | src/App.jsx:38 | appending a message whose id comes from the counter keeps every id unique across all sessions and below the advanced counter |
| SessionStore.SessionName | src/App.jsx:231 | a session name is `Chat ` followed by the decimal numeral of its number |
| SessionStore.SessionNameInjective | src/App.jsx:231 | different session numbers give different names |
| SessionStore.NamesDistinct | src/App.jsx:231 | a list whose position i holds `Chat (i+1)` never repeats a name |
| SessionStore.ViewOf | src/App.jsx:255-261 | an entry is rendered as markdown exactly when its author is the AI, and as plain text otherwise; `Protocol.RoutedEntryView` ties this to where the entry came from |
| Protocol.IsVideoMessage | src/App.jsx:30 | a frame counts as a video only when it has a `video_url` long enough to contain `http` |
| Protocol.Route | src/App.jsx:28-50 | a frame adds an entry iff its transcription or its text is truthy. The entry's text is non-empty. The author is `User` iff the transcription is truthy, with the transcription as text; otherwise it is `AI`, with the reply text |
| Protocol.RouteIgnoresVideo | src/App.jsx:30-50 | routing does not depend on the video field, so a frame without transcription or text is dropped even when `isVideoMessage` holds for it |
| Protocol.DataUrlPayload | src/App.jsx:68 | the payload is absent exactly when the data URL has no comma, and never contains a comma |
| Protocol.PayloadIsSecondField | src/App.jsx:68 | the payload is the field between the first comma and the second comma (or the end), whatever follows |
| Protocol.Base64DataUrlPayload | src/App.jsx:65-68 | for a base64 data URL (section 3 of RFC 2397; alphabet of section 4 of RFC 4648), the payload is exactly the base64 text after the header |
| Protocol.AudioEnvelope | src/App.jsx:68-69 | the audio frame is addressed to the given session; its audio field is the text after the data URL's first comma, up to the next comma (`DataUrlPayload`), and is present iff the URL has a comma |
| Protocol.AudioEnvelopeCarriesBase64 | src/App.jsx:65-69 | the audio frame built from a well-formed base64 data URL carries exactly the base64 text, addressed to the given session |
| Protocol.RoutedEntryView | src/App.jsx:28-50 | an entry stored from an inbound frame is shown as markdown exactly when the frame had no transcription (it is a text reply), and the `User` entry a typed prompt stores is shown as plain text |
| Recorder.Concat | src/App.jsx:133 | the blob is as long as the sum of the chunks' sizes |
| Recorder.ConcatAppend | src/App.jsx:133 | the blob of a concatenated buffer is the concatenation of the blobs of its parts |
| Recorder.Buffered | src/App.jsx:128-130 | the buffer never holds more chunks than arrived; `BufferedSnoc` states each step |
| Recorder.BufferedOnlyNonEmpty | src/App.jsx:128-130 | the buffer holds only chunks with data |
| Recorder.BufferedSnoc | src/App.jsx:129 | one more arrival is buffered at the end exactly when it has data |
| Recorder.BufferedAppend | src/App.jsx:128-130 | buffering keeps arrival order across any split of the arrivals |
| Recorder.BufferedKeepsEveryByte | src/App.jsx:129-133 | dropping empty chunks loses no byte: the blob holds every byte received, in order |
| Recorder.Pause | src/App.jsx:144-147 | pausing sets the paused flag and leaves the recording flag alone |
| Recorder.Resume | src/App.jsx:149-152 | resuming clears the paused flag and leaves the recording flag alone |
| Recorder.Stop | src/App.jsx:154-158 | stopping clears both flags from any state |
| Recorder.Click | src/App.jsx:102-111 | the mic button starts recording when idle, resumes when paused, and otherwise stops |
| Recorder.HandlersKeepConsistent | src/App.jsx:102-158 | every handler keeps a paused recorder recording; a click never leaves the recorder paused; from idle it starts an unpaused recording |
| Recorder.ClickCycles | src/App.jsx:102-158 | from idle, two clicks return to idle; after a pause, one click resumes and a second stops |
| AppState.App.constructor | src/App.jsx:9-15 | the initial state: no histories, empty input, no blob, the sessions `["Chat 1"]` with `Chat 1` active, both flags clear, and the socket not yet open |
| AppState.App.OnOpen | src/App.jsx:24-26 | the socket becomes open; nothing else changes |
| AppState.App.OnClose | src/App.jsx:54-57 | the socket becomes closed; nothing else changes |
| AppState.App.AddMessage | src/App.jsx:34-40 | the active session's history gains one entry with a fresh id and the given author and text; the counter advances by one; the invariant holds |
| AppState.App.OnMessage | src/App.jsx:28-50 | a frame, which arrives only on an open socket, appends exactly the entry `Route` names to the active session, or changes nothing when `Route` names none |
| AppState.App.SetInput | src/App.jsx:276 | the input box holds the new text |
| AppState.App.SendAudio | src/App.jsx:64-73 | the audio path sends one audio frame for the active session and adds no entry |
| AppState.App.SendPrompt | src/App.jsx:74-86 | the text path sends one prompt frame for the active session, appends one `User` entry with that text, and clears the input |
| AppState.App.SendMessage | src/App.jsx:60-90 | on an open socket, audio sends an audio frame and nothing else, while text sends a prompt frame, appends the `User` entry and clears the input. On a closed socket nothing is sent and no history, counter or input changes |
| AppState.App.HandleSend | src/App.jsx:93-100 | a pending recording takes precedence and is always dropped afterwards, even on a closed socket; with no recording, blank input does nothing; other input is sent untrimmed as a prompt |
| AppState.App.StartRecording | src/App.jsx:113-138 | a new analysis context becomes live, and the chunk buffer starts empty |
| AppState.App.HandleMicClick | src/App.jsx:102-111 | the flags follow `Click`; only the start branch creates a context and resets the buffer |
| AppState.App.PauseRecording | src/App.jsx:144-147 | the flags follow `Pause` |
| AppState.App.ResumeRecording | src/App.jsx:149-152 | the flags follow `Resume` |
| AppState.App.StopRecording | src/App.jsx:154-158 | the flags follow `Stop` |
| AppState.App.OnDataAvailable | src/App.jsx:128-130 | a chunk with data is pushed at the end of the buffer; an empty chunk leaves the buffer unchanged |
| AppState.App.OnRecorderStop | src/App.jsx:132-136 | the pending blob is the concatenation of the buffer, which equals every byte received; the live context, if any, is closed once and cleared |
| AppState.App.StopVisualization | src/App.jsx:160-165 | a live context is logged as closed and cleared; with no live context nothing happens |
| AppState.App.Draw | src/App.jsx:174 | a waveform frame is drawn iff an analysis context is live |
| AppState.App.NewChat | src/App.jsx:231 | `Chat (n+1)` is appended, where n is the current count; names stay distinct; histories and the active session are untouched |
| AppState.App.SelectSession | src/App.jsx:218-221 | the clicked session becomes active; no history changes; a change of session closes the socket, because the effect re-runs and its new socket starts connecting |
| AppState.PromptThenReply | src/App.jsx:41-98 | typed text sent on an open socket, followed by a reply, leaves the active session with the `User` entry and then the `AI` entry, and one prompt frame in the log |
| AppState.RecordingThenTranscription | src/App.jsx:32-95 | a recording sent as audio adds no entry by itself; only the transcription that comes back adds one, as a `User` entry |
| AppState.ReleaseTwice | src/App.jsx:160-174 | a second `stopVisualization` is a no-op, so a context is closed at most once, and no frame is drawn after release |

## Left out

- Layout, CSS classes, and the markdown and `<video>` rendering are UI only (src/App.jsx:212-296). `ViewOf` keeps the two branches of the display choice that a stored entry can reach: markdown for `AI`, plain text for `User`. The video branch is unreachable, because no stored entry carries a `video_url`.
- The canvas waveform drawing and its `requestAnimationFrame` loop are left out: they are floating-point geometry driven by host scheduling. Only the guard at the top of `draw` is modelled, as `Draw`.
- Constructing the WebSocket and its log lines are network I/O. The socket is an `open` flag, set by `OnOpen`/`OnClose`, plus the log of frames sent. `SelectSession` models the effect's reconnect on a session change only as the new socket not being open yet. A reply still pending on the old socket when the session changes is lost; the model has no event for it, since `OnMessage` needs an open socket. The model also lets `OnOpen` follow `OnClose` at any time. In the source a closed socket never reopens, and a new socket appears only when the session changes (src/App.jsx:23-58).
- The internals of `getUserMedia`, `AudioContext`, the analyser and `MediaRecorder` are foreign device APIs. They appear only as the events start, chunk and stop.
- AppState.App.HandleMicClick: models a granted microphone only. When `getUserMedia` fails, the source still sets `isRecording`, but the failure order depends on the event loop, and the model has no failure path.
- The asynchronous `FileReader` is left out. Its data URL is a parameter of `HandleSend`/`SendMessage`. Base64 encoding itself is not modelled; `Base64DataUrlPayload` states what the cut does to a well-formed result.
- `JSON.parse`/`JSON.stringify` are foreign calls: frames are datatypes. The `audio` key that `JSON.stringify` drops when `split(",")[1]` is `undefined` is the `None` of `Outbound.Audio`.
- `uuidv4()` is a foreign random source. It is a counter, so ids are fresh by construction; random collisions are not modelled.
- `scrollIntoView` (src/App.jsx:208-210) is UI only.
- Asynchronous ordering is not modelled. Each callback is a separate synchronous event. Stale closures over `currentSession` are left out, as is the race between the delayed audio send and a later text send.
- AppState.App.StartRecording: a restart while a context is still live overwrites the ref without closing it. The model creates the new context the same way, but `Valid()` does not track contexts lost like that.
- AppState.App.PauseRecording: the source has no caller for `pauseRecording`. Its precondition `isRecording` reflects that `pause()` on a missing or inactive recorder throws. The same precondition on `ResumeRecording` and `StopRecording` is guaranteed by their only caller, `handleMicClick`.
- AppState.App.SelectSession: requires the session to be in the list, since the side bar only offers listed sessions.

/** The `App` component's state and its event handlers. React state, the refs and the
    WebSocket become fields of one object; each handler is a method that updates them.
    The socket is an `open` flag plus the log of frames sent on it; `uuidv4` is a counter;
    the audio analysis context is a number, with the log of the contexts closed so far. */
module AppState {
  import opened Wrappers
  import opened Text
  import opened SessionStore
  import opened Protocol
  import opened Recorder

  class App {
    // React state
    var messages: Store
    var input: string
    var isRecording: bool
    var audioBlob: Option<seq<byte>>
    var currentSession: string
    var sessions: seq<string>
    var isPaused: bool

    // ws.current: whether its readyState is OPEN, and every frame sent through it
    var open: bool
    var outbox: seq<Outbound>

    // the source of fresh message ids
    var nextId: nat

    // the `chunks` array of the current recording, and (ghost) every chunk it was offered
    var chunks: seq<Chunk>
    ghost var received: seq<Chunk>

    // audioCtxRef.current, how many contexts were created, and the contexts closed so far
    var audioCtx: Option<nat>
    var contextsMade: nat
    var closedContexts: seq<nat>

    /** The component's invariant, in four parts that each read only their own fields. */
    ghost predicate Valid()
      reads this`sessions, this`currentSession, this`messages, this`nextId
      reads this`isRecording, this`isPaused, this`chunks, this`received
      reads this`audioCtx, this`contextsMade, this`closedContexts
    {
      SessionsValid() && IdsValid() && RecorderValid() && ContextsValid()
    }

    /** The names follow `Chat 1`, `Chat 2`, ...; the active session and every session that
        has a history are listed. */
    ghost predicate SessionsValid()
      reads this`sessions, this`currentSession, this`messages
    {
      && 1 <= |sessions| && NamedInOrder(sessions)
      && currentSession in sessions
      && (forall s :: s in messages ==> s in sessions)
    }

    /** Every message id was handed out by the counter, and no two entries share one. */
    ghost predicate IdsValid()
      reads this`messages, this`nextId
    {
      IdsBelow(messages, nextId) && IdsUnique(messages)
    }

    /** A paused recorder is recording, and the buffer holds the non-empty chunks offered. */
    ghost predicate RecorderValid()
      reads this`isRecording, this`isPaused, this`chunks, this`received
    {
      Consistent(Flags()) && chunks == Buffered(received)
    }

    /** The live analysis context has not been closed, and no context was closed twice. */
    ghost predicate ContextsValid()
      reads this`audioCtx, this`contextsMade, this`closedContexts
    {
      && (audioCtx.Some? ==> audioCtx.value < contextsMade && audioCtx.value !in closedContexts)
      && (forall i :: 0 <= i < |closedContexts| ==> closedContexts[i] < contextsMade)
      && (forall i, j :: 0 <= i < j < |closedContexts| ==> closedContexts[i] != closedContexts[j])
    }

    /** The two recording flags. */
    function Flags(): Mic
      reads this`isRecording, this`isPaused
    {
      Mic(isRecording, isPaused)
    }

    /** The initial state of the component, before its socket has opened. */
    constructor ()
      ensures Valid()
      ensures messages == map[] && input == "" && audioBlob == None
      ensures sessions == ["Chat 1"] && currentSession == "Chat 1"
      ensures Flags() == Idle && !open && outbox == [] && nextId == 0
      ensures chunks == [] && audioCtx == None && closedContexts == []
    {
      messages, input, audioBlob := map[], "", None;
      isRecording, isPaused := false, false;
      currentSession, sessions := "Chat 1", ["Chat 1"];
      open, outbox := false, [];
      nextId := 0;
      chunks, received := [], [];
      audioCtx, contextsMade, closedContexts := None, 0, [];
      assert "Chat 1" == SessionName(1);
    }

    // -------------------------------------------------------------------------
    // The socket
    // -------------------------------------------------------------------------

    /** The socket reached OPEN. */
    method OnOpen()
      requires Valid()
      modifies this`open
      ensures Valid() && open
    {
      open := true;
    }

    /** The socket closed (peer close, error or teardown). */
    method OnClose()
      requires Valid()
      modifies this`open
      ensures Valid() && !open
    {
      open := false;
    }

    /** `setMessages` with the append updater and a fresh id, on the active session. */
    method AddMessage(user: Author, text: string)
      requires Valid()
      modifies this`messages, this`nextId
      ensures Valid()
      ensures messages == Append(old(messages), currentSession, Message(old(nextId), user, text))
      ensures nextId == old(nextId) + 1
    {
      AppendFreshId(messages, currentSession, nextId, user, text);
      messages := Append(messages, currentSession, Message(nextId, user, text));
      nextId := nextId + 1;
    }

    /** `onmessage`: a transcription becomes a `User` entry, otherwise a text reply an `AI`
        entry, of the session active when the frame arrives; any other frame is dropped.
        Frames arrive only on an open socket. */
    method OnMessage(env: Inbound)
      requires Valid() && open
      modifies this`messages, this`nextId
      ensures Valid()
      ensures Route(env).None? ==> messages == old(messages) && nextId == old(nextId)
      ensures Route(env).Some? ==>
        && messages == Append(old(messages), currentSession,
                              Message(old(nextId), Route(env).value.0, Route(env).value.1))
        && nextId == old(nextId) + 1
    {
      if Truthy(env.transcribedText) {
        AddMessage(User, env.transcribedText.value);
      } else if Truthy(env.text) {
        AddMessage(AI, env.text.value);
      }
    }

    // -------------------------------------------------------------------------
    // Sending
    // -------------------------------------------------------------------------

    /** `onChange` of the input box. */
    method SetInput(text: string)
      requires Valid()
      modifies this`input
      ensures Valid() && input == text
    {
      input := text;
    }

    /** The audio path of `sendMessage`: the payload of the data URL goes out as
        `{ audio, session_id }` and no entry is added. */
    method SendAudio(dataUrl: string)
      requires Valid() && open
      modifies this`outbox
      ensures Valid()
      ensures outbox == old(outbox) + [AudioEnvelope(dataUrl, currentSession)]
    {
      var base64Audio := DataUrlPayload(dataUrl);
      outbox := outbox + [Audio(base64Audio, currentSession)];
    }

    /** The text path of `sendMessage`: the prompt goes out as `{ prompt, session_id }`, is
        appended at once as a `User` entry, and the input box is cleared. */
    method SendPrompt(text: string)
      requires Valid() && open
      modifies this`outbox, this`messages, this`nextId, this`input
      ensures Valid()
      ensures outbox == old(outbox) + [Prompt(text, currentSession)]
      ensures messages == Append(old(messages), currentSession, Message(old(nextId), User, text))
      ensures nextId == old(nextId) + 1 && input == ""
    {
      outbox := outbox + [Prompt(text, currentSession)];
      AddMessage(User, text);
      input := "";
    }

    /** `sendMessage(text, audio)`, where `audio` is the data URL the reader produced for the
        blob. Only an open socket sends: audio by the audio path, anything else by the text
        path. A closed socket changes nothing. */
    method SendMessage(text: string, audio: Option<string>)
      requires Valid()
      modifies this`outbox, this`messages, this`nextId, this`input
      ensures Valid()
      ensures outbox == old(outbox) + if !open then []
                                      else if audio.Some? then [AudioEnvelope(audio.value, currentSession)]
                                      else [Prompt(text, currentSession)]
      ensures open && audio.None? ==>
        && messages == Append(old(messages), currentSession, Message(old(nextId), User, text))
        && nextId == old(nextId) + 1 && input == ""
      ensures !open || audio.Some? ==>
        messages == old(messages) && nextId == old(nextId) && input == old(input)
    {
      if open {
        if audio.Some? {
          SendAudio(audio.value);
        } else {
          SendPrompt(text);
        }
      }
    }

    /** `handleSend`: a pending recording is sent in preference to typed text and is then
        dropped, whether or not the socket was open; with no recording, typed text that is
        not blank is sent as typed (untrimmed); blank text does nothing. `dataUrl` is what
        the reader produces for the pending recording. */
    method HandleSend(dataUrl: string)
      requires Valid()
      modifies this`outbox, this`messages, this`nextId, this`input, this`audioBlob
      ensures Valid()
      ensures audioBlob == None
      ensures old(audioBlob).Some? ==>
        && outbox == old(outbox) + (if open then [AudioEnvelope(dataUrl, currentSession)] else [])
        && messages == old(messages) && nextId == old(nextId) && input == old(input)
      ensures old(audioBlob).None? && (IsBlank(old(input)) || !open) ==>
        outbox == old(outbox) && messages == old(messages) && nextId == old(nextId) && input == old(input)
      ensures old(audioBlob).None? && !IsBlank(old(input)) && open ==>
        && outbox == old(outbox) + [Prompt(old(input), currentSession)]
        && messages == Append(old(messages), currentSession, Message(old(nextId), User, old(input)))
        && nextId == old(nextId) + 1 && input == ""
    {
      if audioBlob.Some? {
        SendMessage("", Some(dataUrl));
        audioBlob := None;
      } else if !IsBlank(input) {
        SendMessage(input, None);
      }
    }

    // -------------------------------------------------------------------------
    // Recording
    // -------------------------------------------------------------------------

    /** `startRecording` once the microphone is granted: a new analysis context, an empty
        chunk buffer, and the recorder started. */
    method StartRecording()
      requires Valid()
      modifies this`chunks, this`received, this`audioCtx, this`contextsMade
      ensures Valid()
      ensures chunks == [] && audioCtx == Some(old(contextsMade)) && contextsMade == old(contextsMade) + 1
    {
      audioCtx := Some(contextsMade);
      contextsMade := contextsMade + 1;
      chunks := [];
      received := [];
    }

    /** `handleMicClick`: the flags follow the three-way toggle; only the start branch
        touches the recorder's buffer and context. */
    method HandleMicClick()
      requires Valid()
      modifies this`isRecording, this`isPaused, this`chunks, this`received, this`audioCtx, this`contextsMade
      ensures Valid()
      ensures Flags() == Click(old(Flags()))
      ensures !old(isRecording) ==>
        && Flags() == Mic(true, false)
        && chunks == [] && audioCtx == Some(old(contextsMade)) && contextsMade == old(contextsMade) + 1
      ensures old(isRecording) ==>
        chunks == old(chunks) && audioCtx == old(audioCtx) && contextsMade == old(contextsMade)
    {
      if !isRecording {
        StartRecording();
        isRecording := true;
      } else if isPaused {
        ResumeRecording();
      } else {
        StopRecording();
      }
    }

    /** `pauseRecording` (the recorder must exist and be active for `pause()` not to throw). */
    method PauseRecording()
      requires Valid() && isRecording
      modifies this`isPaused
      ensures Valid() && Flags() == Pause(old(Flags()))
    {
      isPaused := true;
    }

    /** `resumeRecording`. */
    method ResumeRecording()
      requires Valid() && isRecording
      modifies this`isPaused
      ensures Valid() && Flags() == Resume(old(Flags()))
    {
      isPaused := false;
    }

    /** `stopRecording`: the recorder is asked to stop (its `onstop` follows as a separate
        event) and both flags are cleared. */
    method StopRecording()
      requires Valid() && isRecording
      modifies this`isRecording, this`isPaused
      ensures Valid() && Flags() == Stop(old(Flags()))
    {
      isRecording := false;
      isPaused := false;
    }

    /** `ondataavailable`: a chunk with data is pushed onto the buffer; an empty one is not. */
    method OnDataAvailable(chunk: Chunk)
      requires Valid()
      modifies this`chunks, this`received
      ensures Valid()
      ensures received == old(received) + [chunk]
      ensures chunks == old(chunks) + (if |chunk| > 0 then [chunk] else [])
    {
      BufferedSnoc(received, chunk);
      if |chunk| > 0 {
        chunks := chunks + [chunk];
      } else {
        assert chunks + [] == chunks;
      }
      received := received + [chunk];
      assert chunks == Buffered(received);
    }

    /** The recorder's `onstop`: the buffered chunks become the pending recording, and the
        analysis context is released. The recording holds every byte that was offered. */
    method OnRecorderStop()
      requires Valid()
      modifies this`audioBlob, this`audioCtx, this`closedContexts
      ensures Valid()
      ensures audioBlob == Some(Concat(chunks)) && audioBlob == Some(Concat(received))
      ensures audioCtx == None
      ensures old(audioCtx).Some? ==> closedContexts == old(closedContexts) + [old(audioCtx).value]
      ensures old(audioCtx).None? ==> closedContexts == old(closedContexts)
    {
      audioBlob := Some(Concat(chunks));
      BufferedKeepsEveryByte(received);
      StopVisualization();
    }

    /** `stopVisualization`: a live context is closed and forgotten; with none, nothing
        happens, so no context is ever closed twice. */
    method StopVisualization()
      requires Valid()
      modifies this`audioCtx, this`closedContexts
      ensures Valid() && audioCtx == None
      ensures old(audioCtx).Some? ==> closedContexts == old(closedContexts) + [old(audioCtx).value]
      ensures old(audioCtx).None? ==> closedContexts == old(closedContexts)
    {
      if audioCtx.Some? {
        closedContexts := closedContexts + [audioCtx.value];
        audioCtx := None;
      }
    }

    /** The guard at the top of each `draw` tick: a frame is drawn only while a context is live. */
    method Draw() returns (drawn: bool)
      requires Valid()
      ensures drawn <==> audioCtx.Some?
    {
      drawn := audioCtx != None;
    }

    // -------------------------------------------------------------------------
    // Sessions
    // -------------------------------------------------------------------------

    /** `New Chat`: the next numbered name is added at the end; the active session and every
        history stay as they were, and the names stay distinct. */
    method NewChat()
      requires Valid()
      modifies this`sessions
      ensures Valid()
      ensures sessions == old(sessions) + [SessionName(|old(sessions)| + 1)]
      ensures forall i, j :: 0 <= i < j < |sessions| ==> sessions[i] != sessions[j]
    {
      sessions := sessions + ["Chat " + Decimal(|sessions| + 1)];
      NamesDistinct(sessions);
    }

    /** Clicking a session in the side bar makes it active. A change of session re-runs the
        socket effect: the old socket is closed and a new one starts connecting. No history
        changes. */
    method SelectSession(s: string)
      requires Valid() && s in sessions
      modifies this`currentSession, this`open
      ensures Valid() && currentSession == s
      ensures open == (old(open) && s == old(currentSession))
    {
      if s != currentSession {
        currentSession := s;
        open := false;
      }
    }
  }

  /** A typed prompt followed by its reply: on an open socket, with no recording pending and
      text that is not blank in the input box, sending emits one prompt frame for the active
      session, whose history then gains the `User` entry and after it the `AI` entry. */
  method PromptThenReply(app: App, reply: string)
    requires app.Valid() && app.open && app.audioBlob == None && !IsBlank(app.input) && reply != ""
    modifies app`outbox, app`messages, app`nextId, app`input, app`audioBlob
    ensures app.Valid() && app.input == ""
    ensures app.outbox == old(app.outbox) + [Prompt(old(app.input), app.currentSession)]
    ensures app.messages == Append(Append(old(app.messages), app.currentSession,
                                          Message(old(app.nextId), User, old(app.input))),
                                   app.currentSession, Message(old(app.nextId) + 1, AI, reply))
  {
    app.HandleSend("");
    var frame := Inbound(None, Some(reply), None);
    assert Route(frame) == Some((AI, reply));
    app.OnMessage(frame);
  }

  /** A finished recording sent as audio adds no entry; only the transcription that comes back
      adds one, as a `User` entry. */
  method RecordingThenTranscription(app: App, dataUrl: string, transcript: string)
    requires app.Valid() && app.open && app.audioBlob.Some? && transcript != ""
    modifies app`outbox, app`messages, app`nextId, app`input, app`audioBlob
    ensures app.Valid() && app.audioBlob == None
    ensures app.outbox == old(app.outbox) + [AudioEnvelope(dataUrl, app.currentSession)]
    ensures MessagesOf(app.messages, app.currentSession) ==
      MessagesOf(old(app.messages), app.currentSession) + [Message(old(app.nextId), User, transcript)]
  {
    app.HandleSend(dataUrl);
    app.OnMessage(Inbound(Some(transcript), None, None));
  }

  /** Releasing the analysis context twice closes it once: the second `stopVisualization`
      finds the ref null and does nothing, and the waveform loop draws no further frame. */
  method ReleaseTwice(app: App) returns (drawn: bool)
    requires app.Valid()
    modifies app`audioCtx, app`closedContexts
    ensures app.Valid() && app.audioCtx == None && !drawn
    ensures old(app.audioCtx).Some? ==> app.closedContexts == old(app.closedContexts) + [old(app.audioCtx).value]
    ensures old(app.audioCtx).None? ==> app.closedContexts == old(app.closedContexts)
  {
    app.StopVisualization();
    app.StopVisualization();
    drawn := app.Draw();
  }
}

/** The recording side of the client: the chunks a `MediaRecorder` hands to
    `ondataavailable`, the artifact `onstop` builds from them, and the two flags
    (`isRecording`, `isPaused`) the mic button and the pause/resume/stop handlers drive. */
module Recorder {

  newtype byte = x: int | 0 <= x < 256

  /** The bytes of one `event.data` blob; its `size` is the length. */
  type Chunk = seq<byte>

  /** `new Blob(chunks)`: the bytes of the chunks one after another. */
  function Concat(chunks: seq<Chunk>): (blob: seq<byte>)
    ensures |blob| == TotalSize(chunks)
  {
    if chunks == [] then [] else chunks[0] + Concat(chunks[1..])
  }

  /** The sum of the chunks' sizes. */
  function TotalSize(chunks: seq<Chunk>): nat {
    if chunks == [] then 0 else |chunks[0]| + TotalSize(chunks[1..])
  }

  /** Concatenation of the buffer distributes over its parts: the bytes recorded before a
      pause followed by those recorded after the resume are the bytes of the whole buffer,
      with no gap and nothing twice. */
  lemma {:induction false} ConcatAppend(a: seq<Chunk>, b: seq<Chunk>)
    ensures Concat(a + b) == Concat(a) + Concat(b)
  {
    if a != [] {
      ConcatAppend(a[1..], b);
      assert (a + b)[1..] == a[1..] + b;
    } else {
      assert a + b == b;
    }
  }

  /** The buffer `ondataavailable` builds from the chunks it receives, in arrival order:
      `if (event.data.size > 0) chunks.push(event.data)`. */
  function Buffered(received: seq<Chunk>): (kept: seq<Chunk>)
    ensures |kept| <= |received|
  {
    if received == [] then []
    else
      var last := received[|received| - 1];
      Buffered(received[..|received| - 1]) + (if |last| > 0 then [last] else [])
  }

  /** The buffer holds only chunks with data. */
  lemma {:induction false} BufferedOnlyNonEmpty(received: seq<Chunk>)
    ensures forall k :: 0 <= k < |Buffered(received)| ==> |Buffered(received)[k]| > 0
  {
    if received != [] {
      BufferedOnlyNonEmpty(received[..|received| - 1]);
    }
  }

  /** One more arrival: it is buffered at the end exactly when it is not empty. */
  lemma BufferedSnoc(received: seq<Chunk>, chunk: Chunk)
    ensures Buffered(received + [chunk]) == Buffered(received) + (if |chunk| > 0 then [chunk] else [])
  {
    assert (received + [chunk])[..|received|] == received;
  }

  /** Buffering keeps order across any split of the arrivals. */
  lemma {:induction false} BufferedAppend(a: seq<Chunk>, b: seq<Chunk>)
    ensures Buffered(a + b) == Buffered(a) + Buffered(b)
    decreases |b|
  {
    if b != [] {
      var b' := b[..|b| - 1];
      assert (a + b)[..|a + b| - 1] == a + b';
      BufferedAppend(a, b');
    } else {
      assert a + b == a;
    }
  }

  /** Dropping the empty chunks loses no bytes: the artifact holds every byte received. */
  lemma {:induction false} BufferedKeepsEveryByte(received: seq<Chunk>)
    ensures Concat(Buffered(received)) == Concat(received)
  {
    if received != [] {
      var init, last := received[..|received| - 1], received[|received| - 1];
      BufferedKeepsEveryByte(init);
      assert received == init + [last];
      ConcatAppend(Buffered(init), if |last| > 0 then [last] else []);
      ConcatAppend(init, [last]);
      assert Concat([last]) == last + Concat([]);
    }
  }

  // ---------------------------------------------------------------------------
  // The two recording flags
  // ---------------------------------------------------------------------------

  /** `isRecording` and `isPaused`. */
  datatype Mic = Mic(recording: bool, paused: bool)

  const Idle := Mic(false, false)

  /** A paused recorder is a recording one. */
  predicate Consistent(m: Mic) {
    m.paused ==> m.recording
  }

  /** `pauseRecording`: pause; the recording flag is left alone. */
  function Pause(m: Mic): (r: Mic)
    ensures r.paused && r.recording == m.recording
  {
    m.(paused := true)
  }

  /** `resumeRecording`: unpause; the recording flag is left alone. */
  function Resume(m: Mic): (r: Mic)
    ensures !r.paused && r.recording == m.recording
  {
    m.(paused := false)
  }

  /** `stopRecording`: both flags cleared, from any state. */
  function Stop(m: Mic): (r: Mic)
    ensures r == Idle
  {
    Idle
  }

  /** `handleMicClick`, the three-way toggle: start when not recording (which sets only
      `isRecording`), resume when paused, and otherwise stop. */
  function Click(m: Mic): (r: Mic)
    ensures !m.recording ==> r.recording && r.paused == m.paused
    ensures m.recording && m.paused ==> r == Resume(m)
    ensures m.recording && !m.paused ==> r == Stop(m)
  {
    if !m.recording then m.(recording := true)
    else if m.paused then Resume(m)
    else Stop(m)
  }

  /** Every handler keeps a paused recorder recording, so the toggle's start branch always
      leads to an unpaused recording, and a click from a recording state never leaves the
      recorder paused. */
  lemma HandlersKeepConsistent(m: Mic)
    requires Consistent(m)
    ensures Consistent(Click(m)) && !Click(m).paused
    ensures !m.recording ==> Click(m) == Mic(true, false)
    ensures m.recording ==> Consistent(Pause(m))
    ensures Consistent(Resume(m)) && Consistent(Stop(m))
  {
  }

  /** The mic button alone can never pause: from idle, clicks alternate between recording
      and idle; a recording paused by the separate handler is resumed, not stopped, by the
      next click, and stopped by the one after. */
  lemma ClickCycles(m: Mic)
    requires m.recording
    ensures Click(Click(Idle)) == Idle
    ensures Click(Pause(m)) == Mic(true, false)
    ensures Click(Click(Pause(m))) == Idle
  {
  }
}

/** The frames the client exchanges with the assistant server over its one WebSocket:
    the inbound envelope and how `onmessage` routes it, and the two outbound envelopes,
    including how the audio payload is cut out of a data URL. */
module Protocol {
  import opened Wrappers
  import opened Text
  import opened SessionStore

  // ---------------------------------------------------------------------------
  // Inbound
  // ---------------------------------------------------------------------------

  /** A parsed inbound frame: each field may be missing. */
  datatype Inbound = Inbound(transcribedText: Option<string>, text: Option<string>, videoUrl: Option<string>)

  /** JavaScript truthiness of a string field: present and not the empty string. */
  predicate Truthy(field: Option<string>) {
    field.Some? && field.value != ""
  }

  /** The branch `onmessage` takes: the author and text of the one entry to append to the
      active session, or nothing. A transcription wins over a text reply; a frame with
      neither (for instance one carrying only `video_url`) adds nothing. */
  function Route(env: Inbound): (r: Option<(Author, string)>)
    ensures r.Some? <==> Truthy(env.transcribedText) || Truthy(env.text)
    ensures r.Some? ==> r.value.1 != ""
    ensures r.Some? ==> (r.value.0 == User <==> Truthy(env.transcribedText))
    ensures r.Some? && r.value.0 == User ==> r.value.1 == env.transcribedText.value
    ensures r.Some? && r.value.0 == AI ==> r.value.1 == env.text.value
  {
    if Truthy(env.transcribedText) then Some((User, env.transcribedText.value))
    else if Truthy(env.text) then Some((AI, env.text.value))
    else None
  }

  /** `s.includes(sub)`. */
  predicate Includes(s: string, sub: string) {
    exists i | 0 <= i <= |s| - |sub| :: sub <= s[i..]
  }

  /** `isVideoMessage`: the frame names a video whose URL mentions `http`. */
  predicate IsVideoMessage(env: Inbound)
    ensures IsVideoMessage(env) ==> env.videoUrl.Some? && |env.videoUrl.value| >= 4
  {
    Truthy(env.videoUrl) && Includes(env.videoUrl.value, "http")
  }

  /** `isVideoMessage` is computed and never used: whatever the video field holds, the
      frame is routed the same way, so a video-only frame is dropped even when it is a
      playable video. */
  lemma RouteIgnoresVideo(env: Inbound, url: Option<string>)
    ensures Route(env.(videoUrl := url)) == Route(env)
    ensures env.transcribedText == env.text == None ==> Route(env) == None
    ensures IsVideoMessage(env) && !Truthy(env.transcribedText) && !Truthy(env.text) ==> Route(env) == None
  {
  }

  // ---------------------------------------------------------------------------
  // Outbound
  // ---------------------------------------------------------------------------

  /** An outbound frame: `{ prompt, session_id }` or `{ audio, session_id }`. The audio
      field is `None` when the data URL had no comma: `split(",")[1]` is then `undefined`
      and `JSON.stringify` leaves the key out. */
  datatype Outbound =
    | Prompt(prompt: string, sessionId: string)
    | Audio(audio: Option<string>, sessionId: string)

  /** `dataUrl.split(",")[1]`: the text between the first and the second comma (or the end),
      absent when there is no comma at all. */
  function DataUrlPayload(dataUrl: string): (r: Option<string>)
    ensures r.None? <==> ',' !in dataUrl
    ensures r.Some? ==> ',' !in r.value
  {
    SplitPieces(dataUrl, ',');
    var parts := Split(dataUrl, ',');
    if |parts| >= 2 then Some(parts[1]) else None
  }

  /** The payload is exactly the field after the first comma, whatever follows a second one. */
  lemma PayloadIsSecondField(head: string, field: string, rest: string)
    requires ',' !in head && ',' !in field
    ensures DataUrlPayload(head + [','] + field) == Some(field)
    ensures DataUrlPayload(head + [','] + field + [','] + rest) == Some(field)
  {
    SplitAfterHead(head, ',', field);
    SplitWithoutSeparator(field, ',');
    SplitAfterHead(head, ',', field + [','] + rest);
    SplitAfterHead(field, ',', rest);
    assert head + [','] + field + [','] + rest == head + [','] + (field + [','] + rest);
  }

  /** The base64 alphabet of section 4 of RFC 4648, with its `=` padding character. */
  predicate IsBase64Char(c: char) {
    ('A' <= c <= 'Z') || ('a' <= c <= 'z') || ('0' <= c <= '9') || c == '+' || c == '/' || c == '='
  }

  /** A base64 data URL as section 3 of RFC 2397 writes it: `data:<type>;base64,<data>`. */
  function Base64DataUrl(mediaType: string, data: string): string {
    "data:" + mediaType + ";base64," + data
  }

  /** `FileReader.readAsDataURL` output stripped of its header: for a well-formed base64 data
      URL the payload sent is exactly the base64 text. */
  lemma Base64DataUrlPayload(mediaType: string, data: string)
    requires ',' !in mediaType
    requires forall i :: 0 <= i < |data| ==> IsBase64Char(data[i])
    ensures DataUrlPayload(Base64DataUrl(mediaType, data)) == Some(data)
  {
    var head := "data:" + mediaType + ";base64";
    assert forall i :: 0 <= i < |data| ==> data[i] != ',';
    assert ',' !in head;
    assert Base64DataUrl(mediaType, data) == head + [','] + data;
    PayloadIsSecondField(head, data, "");
  }

  /** The audio frame `sendMessage` builds once the reader has produced `dataUrl`. */
  function AudioEnvelope(dataUrl: string, session: string): (env: Outbound)
    ensures env.Audio? && env.sessionId == session
    ensures env.audio == DataUrlPayload(dataUrl)
    ensures env.audio.Some? <==> ',' in dataUrl
  {
    Audio(DataUrlPayload(dataUrl), session)
  }

  /** The frame built from a reader's base64 data URL carries exactly the base64 text. */
  lemma AudioEnvelopeCarriesBase64(mediaType: string, data: string, session: string)
    requires ',' !in mediaType
    requires forall i :: 0 <= i < |data| ==> IsBase64Char(data[i])
    ensures AudioEnvelope(Base64DataUrl(mediaType, data), session) == Audio(Some(data), session)
  {
    Base64DataUrlPayload(mediaType, data);
  }

  // ---------------------------------------------------------------------------
  // How stored entries are shown
  // ---------------------------------------------------------------------------

  /** What an entry's source decides about how it is shown: an entry `onmessage` stores from
      a text reply is rendered as markdown and one stored from a transcription as plain text;
      the entry the text path of `sendMessage` stores is plain text too. */
  lemma RoutedEntryView(env: Inbound, id: nat, typed: string)
    requires Route(env).Some?
    ensures ViewOf(Message(id, Route(env).value.0, Route(env).value.1)) == Markdown
            <==> !Truthy(env.transcribedText)
    ensures ViewOf(Message(id, User, typed)) == PlainText
  {
  }
}

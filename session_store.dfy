/** The conversation store of the client: a map from session name to that session's
    message history, the `setMessages` updater that appends to it, the `uuidv4` ids of
    messages (modelled as a counter) and the names `New Chat` gives to sessions. */
module SessionStore {
  import opened Text

  /** `msg.user`: who a message is shown as coming from. */
  datatype Author = User | AI

  /** One entry of a history, `{ id, user, text }`. */
  datatype Message = Message(id: nat, user: Author, text: string)

  /** The `messages` state: session name to history. A session that has never received a
      message has no key. */
  type Store = map<string, seq<Message>>

  /** `prev[s] || []`: the history of session `s`, empty when it has no entry yet. */
  function MessagesOf(m: Store, s: string): (h: seq<Message>)
    ensures s in m ==> h == m[s]
    ensures h == [] <==> s !in m || m[s] == []
  {
    if s in m then m[s] else []
  }

  /** The updater `prev => ({ ...prev, [s]: [...(prev[s] || []), msg] })`. */
  function Append(m: Store, s: string, msg: Message): (r: Store)
    ensures s in r && |r[s]| == |MessagesOf(m, s)| + 1 && r[s][|r[s]| - 1] == msg
  {
    m[s := MessagesOf(m, s) + [msg]]
  }

  /** The frame condition of every append: the history of `s` keeps its old messages as a
      prefix and gains `msg` as its one new last entry; every other session's history is
      untouched, and the only key that can appear is `s`. */
  lemma AppendFrame(m: Store, s: string, msg: Message)
    ensures Append(m, s, msg).Keys == m.Keys + {s}
    ensures MessagesOf(m, s) <= MessagesOf(Append(m, s, msg), s)
    ensures |MessagesOf(Append(m, s, msg), s)| == |MessagesOf(m, s)| + 1
    ensures MessagesOf(Append(m, s, msg), s)[|MessagesOf(m, s)|] == msg
    ensures forall t :: t != s ==> MessagesOf(Append(m, s, msg), t) == MessagesOf(m, t)
  {
  }

  /** A run of appends, each to the session named beside the message, applied in order. */
  function AppendEach(m: Store, appends: seq<(string, Message)>): Store
    decreases appends
  {
    if appends == [] then m
    else AppendEach(Append(m, appends[0].0, appends[0].1), appends[1..])
  }

  /** The messages of a run of appends that went to session `s`, in the order they were made. */
  function SentTo(appends: seq<(string, Message)>, s: string): seq<Message> {
    if appends == [] then []
    else (if appends[0].0 == s then [appends[0].1] else []) + SentTo(appends[1..], s)
  }

  /** Histories are append-only and first-in first-out, per session, however appends to
      different sessions interleave: each session ends with its old history followed by
      exactly the messages sent to it, in call order. */
  lemma {:induction false} AppendEachPerSession(m: Store, appends: seq<(string, Message)>, s: string)
    ensures MessagesOf(AppendEach(m, appends), s) == MessagesOf(m, s) + SentTo(appends, s)
    decreases appends
  {
    if appends != [] {
      var (t, msg) := appends[0];
      var next := Append(m, t, msg);
      var added := if t == s then [msg] else [];
      calc {
        MessagesOf(AppendEach(m, appends), s);
        MessagesOf(AppendEach(next, appends[1..]), s);
        { AppendEachPerSession(next, appends[1..], s); }
        MessagesOf(next, s) + SentTo(appends[1..], s);
        (MessagesOf(m, s) + added) + SentTo(appends[1..], s);
        MessagesOf(m, s) + (added + SentTo(appends[1..], s));
        MessagesOf(m, s) + SentTo(appends, s);
      }
    }
  }

  // ---------------------------------------------------------------------------
  // Message ids (`uuidv4()`, modelled as a counter that only grows)
  // ---------------------------------------------------------------------------

  /** Every id in the store was handed out before the counter reached `next`. */
  ghost predicate IdsBelow(m: Store, next: nat) {
    forall s, i :: s in m && 0 <= i < |m[s]| ==> m[s][i].id < next
  }

  /** No two entries of the store, in the same session or in different ones, share an id. */
  ghost predicate IdsUnique(m: Store) {
    forall s, t, i, j ::
      s in m && t in m && 0 <= i < |m[s]| && 0 <= j < |m[t]| && m[s][i].id == m[t][j].id
      ==> s == t && i == j
  }

  /** Appending a message that carries a fresh id keeps ids unique and below the counter. */
  lemma AppendFreshId(m: Store, s: string, next: nat, user: Author, text: string)
    requires IdsBelow(m, next) && IdsUnique(m)
    ensures IdsBelow(Append(m, s, Message(next, user, text)), next + 1)
    ensures IdsUnique(Append(m, s, Message(next, user, text)))
  {
    var r: Store := Append(m, s, Message(next, user, text));
    assert forall t: string, i: int :: t in r && 0 <= i < |r[t]| ==>
      (r[t][i].id == next <==> t == s && i == |MessagesOf(m, s)|) &&
      (r[t][i].id != next ==> t in m && i < |m[t]| && r[t][i] == m[t][i]);
  }

  // ---------------------------------------------------------------------------
  // Session names
  // ---------------------------------------------------------------------------

  /** `Chat ${k}`: the name of the k-th session (the first is `Chat 1`). */
  function SessionName(k: nat): (name: string)
    ensures |name| > 5 && name[..5] == "Chat " && name[5..] == Decimal(k)
  {
    "Chat " + Decimal(k)
  }

  /** Different positions give different session names. */
  lemma SessionNameInjective(a: nat, b: nat)
    requires SessionName(a) == SessionName(b)
    ensures a == b
  {
    DecimalInjective(a, b);
  }

  /** The closed form of the `sessions` list: position i holds `Chat (i + 1)`. */
  ghost predicate NamedInOrder(sessions: seq<string>) {
    forall i :: 0 <= i < |sessions| ==> sessions[i] == SessionName(i + 1)
  }

  /** A list of that form never holds the same name twice. */
  lemma NamesDistinct(sessions: seq<string>)
    requires NamedInOrder(sessions)
    ensures forall i, j :: 0 <= i < j < |sessions| ==> sessions[i] != sessions[j]
  {
    forall i, j | 0 <= i < j < |sessions|
      ensures sessions[i] != sessions[j]
    {
      if sessions[i] == sessions[j] {
        SessionNameInjective(i + 1, j + 1);
      }
    }
  }

  // ---------------------------------------------------------------------------
  // How an entry is shown
  // ---------------------------------------------------------------------------

  /** How the chat area shows an entry. (The `<video>` branch of the view is not listed:
      no entry the client stores ever carries a `video_url`.) */
  datatype View = Markdown | PlainText

  /** `msg.video_url ? … : msg.user === "AI" ? <ReactMarkdown> : msg.text`. */
  function ViewOf(msg: Message): (v: View)
    ensures v == Markdown <==> msg.user == AI
  {
    if msg.user == AI then Markdown else PlainText
  }
}

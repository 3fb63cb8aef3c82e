/** `maybe_update_title`: after a user message is stored, the title of its
    conversation may be regenerated from the thread's user messages. The
    title model is a parameter: it maps the prompt to a reply, or raises. */
module TitleGate {
  import opened Basics
  import opened Title
  import opened Store

  /** What the title model call produced: an exception or a reply. */
  datatype LlmReply = Raised | Returned(output: LlmOutput)

  /** Titles are regenerated only while a thread has at most this many user
      messages. */
  const MaxTitledMessages: nat := 3

  /** The thread has between one and three user messages. */
  predicate GateOpen(db: Db, tid: ThreadId)
  {
    1 <= UserMessageCount(db, tid) <= MaxTitledMessages
  }

  /** The non-empty contents among `rows`, in order. */
  function NonEmptyContents(rows: seq<MessageRow>): (r: seq<string>)
    ensures forall i :: 0 <= i < |r| ==> r[i] != ""
    ensures forall i :: 0 <= i < |rows| && rows[i].content != "" ==> rows[i].content in r
    ensures forall i :: 0 <= i < |r| ==> exists j :: 0 <= j < |rows| && rows[j].content == r[i]
    ensures |r| <= |rows|
  {
    if rows == [] then []
    else
      var rest := NonEmptyContents(rows[1..]);
      assert forall i :: 1 <= i < |rows| ==> rows[i] == rows[1..][i - 1];
      if rows[0].content != "" then
        var r := [rows[0].content] + rest;
        assert forall i :: 1 <= i < |r| ==> r[i] == rest[i - 1];
        r
      else rest
  }

  /** The contents are kept in order: the list for a concatenation of rows
      is the lists of the parts, one after the other, and a single row
      contributes its content exactly when it is non-empty. */
  lemma {:induction false} NonEmptyContentsAppend(a: seq<MessageRow>, b: seq<MessageRow>)
    ensures NonEmptyContents(a + b) == NonEmptyContents(a) + NonEmptyContents(b)
    ensures |a| == 1 ==> NonEmptyContents(a) == if a[0].content != "" then [a[0].content] else []
  {
    if a == [] {
      assert a + b == b;
    } else {
      assert (a + b)[1..] == a[1..] + b;
      NonEmptyContentsAppend(a[1..], b);
      if a[0].content != "" {
        AppendAssoc([a[0].content], NonEmptyContents(a[1..]), NonEmptyContents(b));
      }
    }
  }

  /** The user messages of the thread joined by blank lines. */
  function UserContext(db: Db, tid: ThreadId): string
  {
    JoinWith("\n\n", NonEmptyContents(UserRows(ThreadRows(db.rows, tid))))
  }

  /** The fixed text of the title prompt around the joined messages. */
  const PromptHead: string :=
    "Create a concise 2-3 word title (no punctuation if possible) that summarizes "
    + "this conversation's topic based on the user's messages so far. Return only the title.\n\n"
    + "User messages so far:\n"
  const PromptTail: string := "\n\nTitle:"

  /** The prompt sent to the title model. */
  function TitlePrompt(combined: string): string
  {
    PromptHead + combined + PromptTail
  }

  /** The sanitised title a reply yields, or `None` when the call raised:
      the first three words of the reply's text, or the placeholder when
      the text has no words. */
  function ReplyTitle(reply: LlmReply): (r: Option<string>)
    ensures reply.Raised? <==> r.None?
    ensures r.Some? ==> r.value != "" && 0 < |Words(r.value)| <= 3 && r.value == JoinWords(Words(r.value))
    ensures reply.Returned? && Words(ExtractText(reply.output)) == [] ==> r == Some(NewChat)
    ensures reply.Returned? && Words(ExtractText(reply.output)) != [] ==>
      Words(r.value) == PyPrefix(Words(ExtractText(reply.output)), TitleWords)
  {
    match reply
    case Raised => None
    case Returned(o) =>
      StripKeepsWords(ExtractText(o), PyWhitespace);
      SanitizeNeverEmpty(Strip(ExtractText(o), PyWhitespace));
      Some(SanitizeTitle(Strip(ExtractText(o), PyWhitespace), TitleWords))
  }

  /** `after` is `before` with at most the title of conversation `tid`
      changed: the same messages, the same conversations, and the thread
      id and creation time of `tid` kept. */
  predicate OnlyTitleChanged(before: Db, after: Db, tid: ThreadId)
  {
    && after.rows == before.rows
    && after.conversations.Keys == before.conversations.Keys
    && (forall t :: t in before.conversations && t != tid ==> after.conversations[t] == before.conversations[t])
    && (tid in before.conversations ==>
          && after.conversations[tid].threadId == before.conversations[tid].threadId
          && after.conversations[tid].createdAt == before.conversations[tid].createdAt)
  }

  /** `maybe_update_title(thread_id)`. Only the thread's own conversation
      may change, only its title, and only while the gate is open. What
      the title becomes is stated by `TitleFollowsReply`. */
  function MaybeUpdateTitle(db: Db, tid: ThreadId, llm: string -> LlmReply): (r: Db)
    requires Valid(db)
    ensures Valid(r)
    ensures OnlyTitleChanged(db, r, tid)
    ensures r != db ==> GateOpen(db, tid) && tid in db.conversations
  {
    if !GateOpen(db, tid) then db
    else ApplyReply(db, tid, ReplyTitle(llm(TitlePrompt(UserContext(db, tid)))))
  }

  /** A changed title is a well-formed title other than the placeholder.
      Conversely, when the gate is open and the conversation exists, a
      reply that sanitises to anything but the placeholder becomes the
      title, and a raised call or a placeholder answer changes nothing. */
  lemma TitleFollowsReply(db: Db, tid: ThreadId, llm: string -> LlmReply)
    requires Valid(db)
    ensures tid in db.conversations && MaybeUpdateTitle(db, tid, llm).conversations[tid].title != db.conversations[tid].title ==>
      var t := MaybeUpdateTitle(db, tid, llm).conversations[tid].title;
      t != NewChat && t != "" && 0 < |Words(t)| <= 3 && t == JoinWords(Words(t))
    ensures GateOpen(db, tid) && tid in db.conversations ==>
      var reply := ReplyTitle(llm(TitlePrompt(UserContext(db, tid))));
      && (reply.Some? && reply.value != NewChat ==> MaybeUpdateTitle(db, tid, llm).conversations[tid].title == reply.value)
      && (reply.None? || reply.value == NewChat ==> MaybeUpdateTitle(db, tid, llm) == db)
  {
    if GateOpen(db, tid) {
      var reply := ReplyTitle(llm(TitlePrompt(UserContext(db, tid))));
      assert MaybeUpdateTitle(db, tid, llm) == ApplyReply(db, tid, reply);
    }
  }

  /** The first message of a thread opens the gate: right after it is
      stored the thread has exactly one user message, and the prompt's
      context is that message. */
  lemma FirstMessageOpensGate(db: Db, tid: ThreadId, message: string, now: Timestamp)
    requires Valid(db)
    requires forall i :: 0 <= i < |db.rows| ==> db.rows[i].threadId != tid
    ensures var db2 := InsertMessage(db, tid, message, true, now).0;
      GateOpen(db2, tid) && UserContext(db2, tid) == message
  {
    var (db2, id) := InsertMessage(db, tid, message, true, now);
    var row := MessageRow(id, tid, message, true, now);
    ThreadRowsAppend(db.rows, [row], tid);
    NoThreadRows(db.rows, tid);
    assert [row][1..] == [];
    assert ThreadRows(db2.rows, tid) == [row];
    UserRowsOne(row);
    NonEmptyContentsAppend([row], []);
    assert [row] + [] == [row];
  }

  /** A reply object whose `content` is `None` or empty leaves the title
      alone, however many words its `text` holds: `or ""` falls back to the
      empty string, which sanitises to the placeholder. */
  lemma EmptyContentKeepsTitle(db: Db, tid: ThreadId, llm: string -> LlmReply)
    requires Valid(db)
    requires var reply := llm(TitlePrompt(UserContext(db, tid)));
      && reply.Returned? && reply.output.ObjectOutput?
      && (reply.output.content.NoneAttr? || reply.output.content == StrAttr(""))
    ensures MaybeUpdateTitle(db, tid, llm) == db
  {
    var o := llm(TitlePrompt(UserContext(db, tid))).output;
    assert ExtractText(o) == "";
    assert Strip("", PyWhitespace) == "";
    assert SanitizeTitle("", TitleWords) == NewChat;
  }

  /** The tail of `maybe_update_title` once the reply is known: a title
      other than empty or the placeholder replaces the existing
      conversation's title; anything else changes nothing. */
  function ApplyReply(db: Db, tid: ThreadId, reply: Option<string>): (r: Db)
    requires Valid(db)
    ensures Valid(r)
    ensures OnlyTitleChanged(db, r, tid)
    ensures r != db ==> tid in db.conversations && reply.Some? && reply.value != "" && reply.value != NewChat
    ensures tid in db.conversations ==>
      && (r.conversations[tid].title != db.conversations[tid].title ==> r.conversations[tid].title == reply.value)
      && (reply.Some? && reply.value != "" && reply.value != NewChat ==> r.conversations[tid].title == reply.value)
  {
    match reply
    case None => db
    case Some(title) =>
      if title != "" && title != NewChat && tid in db.conversations then Retitle(db, tid, title)
      else db
  }

  /** The single-column `UPDATE` of one existing conversation's title. */
  function Retitle(db: Db, tid: ThreadId, title: string): (r: Db)
    requires Valid(db) && tid in db.conversations
    ensures Valid(r)
    ensures OnlyTitleChanged(db, r, tid)
    ensures r.conversations[tid] == db.conversations[tid].(title := title)
  {
    db.(conversations := db.conversations[tid := db.conversations[tid].(title := title)])
  }
}

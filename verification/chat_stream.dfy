/** `generate_chat_responses`: the server-sent-event stream of one chat
    turn. The graph run is an input sequence of events; the function is a
    transducer from those events to SSE payloads, and alongside it stores
    the user message, maybe retitles the conversation, and grows the
    assistant message row chunk by chunk. */
module ChatStream {
  import opened Basics
  import opened Router
  import opened Store
  import Title
  import opened TitleGate

  /** The name of the web-search tool the model may call. */
  const SearchToolName: string := "tavily_search_results_json"

  /** A streamed model chunk: an `AIMessageChunk`, or anything else (which
      `serialise_ai_message_chunk` rejects with a `TypeError`). */
  datatype Chunk = AiChunk(content: string) | ForeignChunk

  /** The model's final message; `toolCalls` is `None` when it has no
      `tool_calls` attribute. */
  datatype ModelOutput = ModelOutput(toolCalls: Option<seq<ToolCall>>)

  /** One element of a tool's list output: a dict, or some other value. */
  datatype Item = DictItem(fields: map<string, string>) | OtherItem

  /** A tool's output: a list of items, or some other value. */
  datatype ToolOutput = ListOutput(items: seq<Item>) | OtherOutput

  /** The graph events the stream reacts to (`astream_events`, version 2). */
  datatype GraphEvent =
    | ChatModelStream(chunk: Chunk)            // on_chat_model_stream
    | ChatModelEnd(modelOutput: ModelOutput)   // on_chat_model_end
    | ToolEnd(name: string, toolOutput: ToolOutput) // on_tool_end
    | OtherEvent(kind: string)
    | GraphFailure                             // the iterator raised: the chat model or the search tool failed

  /** An event at which the loop stops with an exception: a chunk that
      `serialise_ai_message_chunk` rejects with a `TypeError`, or a failure
      inside the graph (the model call of app.py:41 or the search call of
      app.py:59) surfacing from `astream_events`. */
  predicate Fails(e: GraphEvent)
  {
    e == ChatModelStream(ForeignChunk) || e.GraphFailure?
  }

  /** The JSON objects sent as `data:` lines, by their `type`. */
  datatype Payload =
    | Checkpoint(checkpointId: ThreadId)
    | Content(content: string)
    | SearchStart(query: string)
    | SearchResults(urls: seq<string>)
    | End

  /** What one graph event does to the stream. */
  datatype Step = Emit(payload: Payload) | Silent | Raise

  // ---- search_start: the first search call's query, escaped ----

  /** The search calls among `calls`, in order. */
  function SearchCalls(calls: seq<ToolCall>): (r: seq<ToolCall>)
    ensures forall i :: 0 <= i < |r| ==> r[i].name == SearchToolName
    ensures r == [] <==> forall i :: 0 <= i < |calls| ==> calls[i].name != SearchToolName
    ensures r != [] ==> exists k :: (0 <= k < |calls| && calls[k] == r[0]
      && forall j :: 0 <= j < k ==> calls[j].name != SearchToolName)
  {
    if calls == [] then []
    else if calls[0].name == SearchToolName then [calls[0]] + SearchCalls(calls[1..])
    else
      var r := SearchCalls(calls[1..]);
      assert r != [] ==> exists k :: (0 <= k < |calls| && calls[k] == r[0]
        && forall j :: 0 <= j < k ==> calls[j].name != SearchToolName) by {
        if r != [] {
          var k :| 0 <= k < |calls[1..]| && calls[1..][k] == r[0]
            && forall j :: 0 <= j < k ==> calls[1..][j].name != SearchToolName;
          assert calls[k + 1] == r[0];
          forall j | 0 <= j < k + 1 ensures calls[j].name != SearchToolName {
            if j > 0 { assert calls[j] == calls[1..][j - 1]; }
          }
        }
      }
      r
  }

  /** `call["args"].get("query", "")`. */
  function QueryOf(call: ToolCall): string
  {
    if "query" in call.args then call.args["query"] else ""
  }

  /** One character after the three `replace` calls of app.py. */
  function EscapeChar(c: char): string
  {
    if c == '"' then "\\\"" else if c == '\'' then "\\'" else if c == '\n' then "\\n" else [c]
  }

  /** The query as sent: double quotes, single quotes and newlines
      backslash-escaped. */
  function Escape(s: string): string
  {
    if s == [] then "" else EscapeChar(s[0]) + Escape(s[1..])
  }

  /** Python's `s.replace(c, repl)` for a single-character pattern. */
  function Replace(s: string, c: char, repl: string): string
  {
    if s == [] then "" else (if s[0] == c then repl else [s[0]]) + Replace(s[1..], c, repl)
  }

  lemma {:induction false} ReplaceAppend(a: string, b: string, c: char, repl: string)
    ensures Replace(a + b, c, repl) == Replace(a, c, repl) + Replace(b, c, repl)
  {
    if a == [] {
      assert a + b == b;
    } else {
      assert (a + b)[1..] == a[1..] + b;
      ReplaceAppend(a[1..], b, c, repl);
    }
  }

  /** The three `replace` calls of app.py, in their order. */
  function ReplaceChain(s: string): string
  {
    Replace(Replace(Replace(s, '"', "\\\""), '\'', "\\'"), '\n', "\\n")
  }

  lemma ReplaceChainAppend(a: string, b: string)
    ensures ReplaceChain(a + b) == ReplaceChain(a) + ReplaceChain(b)
  {
    var a1, b1 := Replace(a, '"', "\\\""), Replace(b, '"', "\\\"");
    ReplaceAppend(a, b, '"', "\\\"");
    var a2, b2 := Replace(a1, '\'', "\\'"), Replace(b1, '\'', "\\'");
    ReplaceAppend(a1, b1, '\'', "\\'");
    ReplaceAppend(a2, b2, '\n', "\\n");
  }

  lemma ReplaceOne(x: char, c: char, repl: string)
    ensures Replace([x], c, repl) == if x == c then repl else [x]
  {
    assert [x][1..] == [];
  }

  /** `replace` leaves a string without the pattern character alone. */
  lemma {:induction false} ReplaceAbsent(s: string, c: char, repl: string)
    requires c !in s
    ensures Replace(s, c, repl) == s
  {
    if s != [] {
      ReplaceAbsent(s[1..], c, repl);
    }
  }

  lemma ReplaceChainChar(x: char)
    ensures ReplaceChain([x]) == EscapeChar(x)
  {
    ReplaceOne(x, '"', "\\\"");
    var r1 := Replace([x], '"', "\\\"");
    if x == '\'' {
      ReplaceOne(x, '\'', "\\'");
      ReplaceAbsent("\\'", '\n', "\\n");
    } else {
      ReplaceAbsent(r1, '\'', "\\'");
      if x == '\n' {
        ReplaceOne(x, '\n', "\\n");
      } else {
        ReplaceAbsent(r1, '\n', "\\n");
      }
    }
  }

  /** The per-character escaping agrees with the source's chain of three
      `replace` calls: no later replacement touches what an earlier one
      inserted. */
  lemma {:induction false} EscapeIsReplaceChain(s: string)
    ensures Escape(s) == ReplaceChain(s)
  {
    if s != [] {
      EscapeIsReplaceChain(s[1..]);
      assert s == [s[0]] + s[1..];
      ReplaceChainAppend([s[0]], s[1..]);
      ReplaceChainChar(s[0]);
    }
  }

  // ---- search_results: the urls of the dict items that have one ----

  predicate HasUrl(it: Item)
  {
    it.DictItem? && "url" in it.fields
  }

  /** `[item["url"] for item in output if isinstance(item, dict) and "url" in item]`. */
  function Urls(items: seq<Item>): seq<string>
  {
    if items == [] then []
    else (if HasUrl(items[0]) then [items[0].fields["url"]] else []) + Urls(items[1..])
  }

  /** The url list is assembled item by item, in order: it distributes over
      concatenation, and a single item contributes its url exactly when it
      is a dict with a `url` key. */
  lemma {:induction false} UrlsAppend(a: seq<Item>, b: seq<Item>)
    ensures Urls(a + b) == Urls(a) + Urls(b)
    ensures |a| == 1 ==> Urls(a) == if HasUrl(a[0]) then [a[0].fields["url"]] else []
  {
    if a != [] {
      assert (a + b)[1..] == a[1..] + b;
      UrlsAppend(a[1..], b);
    } else {
      assert a + b == b;
    }
  }

  // ---- one event, and the whole stream body ----

  /** The tool calls of a model output, `[]` when it has none. */
  function CallsOf(o: ModelOutput): seq<ToolCall>
  {
    if o.toolCalls.Some? then o.toolCalls.value else []
  }

  /** The branch of the event loop one graph event takes. */
  function StepOf(e: GraphEvent): (r: Step)
    ensures r.Emit? ==> !r.payload.Checkpoint? && !r.payload.End?
    ensures r.Raise? <==> Fails(e)
    ensures e.ChatModelStream? && e.chunk.AiChunk? ==> r == Emit(Content(e.chunk.content))
    ensures r.Emit? && r.payload.Content? ==> e.ChatModelStream?
    ensures e.OtherEvent? ==> r.Silent?
    ensures e.ChatModelEnd? ==>
      var calls := CallsOf(e.modelOutput);
      && (r.Emit? <==> exists i :: 0 <= i < |calls| && calls[i].name == SearchToolName)
      && (r.Emit? ==> exists k :: (0 <= k < |calls| && calls[k].name == SearchToolName
            && (forall j :: 0 <= j < k ==> calls[j].name != SearchToolName)
            && r.payload == SearchStart(Escape(QueryOf(calls[k])))))
    ensures e.ToolEnd? ==>
      (r.Emit? <==> e.name == SearchToolName && e.toolOutput.ListOutput?)
      && (r.Emit? ==> r.payload == SearchResults(Urls(e.toolOutput.items)))
  {
    match e
    case ChatModelStream(chunk) =>
      if chunk.AiChunk? then Emit(Content(chunk.content)) else Raise
    case ChatModelEnd(output) =>
      var calls := SearchCalls(CallsOf(output));
      if calls != [] then Emit(SearchStart(Escape(QueryOf(calls[0])))) else Silent
    case ToolEnd(name, output) =>
      if name == SearchToolName && output.ListOutput? then Emit(SearchResults(Urls(output.items)))
      else Silent
    case OtherEvent(_) => Silent
    case GraphFailure => Raise
  }

  /** The payloads produced by the event loop, and whether it stopped on an
      exception. */
  datatype Body = Body(payloads: seq<Payload>, raised: bool)

  /** The text of the model's `AIMessageChunk`s, in order, up to the first
      event at which the loop fails. */
  function ChunkText(events: seq<GraphEvent>): string
  {
    if events == [] then ""
    else match events[0]
      case ChatModelStream(AiChunk(c)) => c + ChunkText(events[1..])
      case ChatModelStream(ForeignChunk) => ""
      case GraphFailure => ""
      case _ => ChunkText(events[1..])
  }

  /** The `async for event in events` loop. It never sends `checkpoint` or
      `end` itself, stops exactly when some event fails, and the text of
      the `content` payloads it sends is the text of the model's chunks up
      to that point. */
  function Transduce(events: seq<GraphEvent>): (b: Body)
    ensures forall i :: 0 <= i < |b.payloads| ==> !b.payloads[i].Checkpoint? && !b.payloads[i].End?
    ensures |b.payloads| <= |events|
    ensures b.raised <==> exists i :: 0 <= i < |events| && Fails(events[i])
    ensures ContentText(b.payloads) == ChunkText(events)
  {
    if events == [] then Body([], false)
    else
      var rest := Transduce(events[1..]);
      assert forall i :: 1 <= i < |events| ==> events[i] == events[1..][i - 1];
      match StepOf(events[0])
      case Raise => Body([], true)
      case Silent => rest
      case Emit(p) =>
        assert ([p] + rest.payloads)[1..] == rest.payloads;
        Body([p] + rest.payloads, rest.raised)
  }

  /** A single event: what its step says, and nothing else. Together with
      `TransduceAppend` this fixes the loop's output for every event
      sequence. */
  lemma TransduceOne(e: GraphEvent)
    ensures Transduce([e]) == match StepOf(e)
      case Emit(p) => Body([p], false)
      case Silent => Body([], false)
      case Raise => Body([], true)
  {
    assert [e][1..] == [];
  }

  /** The stream is incremental: the payloads of a longer event sequence
      extend those of its prefix, unless the prefix already stopped. */
  lemma {:induction false} TransduceAppend(a: seq<GraphEvent>, b: seq<GraphEvent>)
    ensures Transduce(a).raised ==> Transduce(a + b) == Transduce(a)
    ensures !Transduce(a).raised ==>
      Transduce(a + b) == Body(Transduce(a).payloads + Transduce(b).payloads, Transduce(b).raised)
  {
    if a == [] {
      assert a + b == b;
    } else {
      assert (a + b)[1..] == a[1..] + b;
      TransduceAppend(a[1..], b);
      var rest, restB := Transduce(a[1..]), Transduce(a[1..] + b);
      match StepOf(a[0])
      case Raise =>
      case Silent =>
        assert Transduce(a) == rest && Transduce(a + b) == restB;
      case Emit(p) =>
        assert Transduce(a) == Body([p] + rest.payloads, rest.raised);
        assert Transduce(a + b) == Body([p] + restB.payloads, restB.raised);
        AppendAssoc([p], rest.payloads, Transduce(b).payloads);
    }
  }

  /** The text of the `content` payloads, in order. */
  function ContentText(ps: seq<Payload>): string
  {
    if ps == [] then ""
    else (if ps[0].Content? then ps[0].content else "") + ContentText(ps[1..])
  }

  lemma {:induction false} ContentTextAppend(a: seq<Payload>, b: seq<Payload>)
    ensures ContentText(a + b) == ContentText(a) + ContentText(b)
  {
    if a == [] {
      assert a + b == b;
    } else {
      assert (a + b)[1..] == a[1..] + b;
      ContentTextAppend(a[1..], b);
    }
  }

  // ---- the database side of the event loop ----

  /** Each content chunk appended to the assistant row. In app.py the row
      is updated right before the chunk's payload is sent, so the appends
      follow the payloads the loop produces, and stop where it stops. */
  function PersistChunks(db: Db, aiId: nat, tid: ThreadId, now: Timestamp, payloads: seq<Payload>): (r: Db)
    requires Valid(db)
    ensures Valid(r)
    ensures r.conversations == db.conversations
    ensures HasRow(db.rows, aiId) ==> RowsKept(db.rows, r.rows, aiId)
    decreases |payloads|
  {
    if payloads == [] then db
    else if payloads[0].Content? then
      var db1 := AppendChunk(db, aiId, tid, payloads[0].content, now);
      assert HasRow(db.rows, aiId) ==> HasRow(db1.rows, aiId) by {
        if HasRow(db.rows, aiId) {
          assert ContentOf(db1.rows, aiId).Some?;
        }
      }
      PersistChunks(db1, aiId, tid, now, payloads[1..])
    else PersistChunks(db, aiId, tid, now, payloads[1..])
  }

  /** `after` has the rows of `before` in the same places; only the content
      of row `aiId` may differ. */
  predicate RowsKept(before: seq<MessageRow>, after: seq<MessageRow>, aiId: nat)
  {
    && |after| == |before|
    && (forall i :: 0 <= i < |before| ==> after[i] == before[i].(content := after[i].content))
    && (forall i :: 0 <= i < |before| && before[i].id != aiId ==> after[i] == before[i])
  }

  /** After the loop, the assistant row holds its earlier text followed by
      the text of every `content` payload sent, in order. */
  lemma {:induction false} PersistMatchesStream(db: Db, aiId: nat, tid: ThreadId, now: Timestamp, payloads: seq<Payload>)
    requires Valid(db)
    requires HasRow(db.rows, aiId)
    ensures ContentOf(PersistChunks(db, aiId, tid, now, payloads).rows, aiId)
      == Some(ContentOf(db.rows, aiId).value + ContentText(payloads))
    decreases |payloads|, 1
  {
    var c0 := ContentOf(db.rows, aiId).value;
    if payloads == [] {
      assert c0 + "" == c0;
    } else if payloads[0].Content? {
      PersistContentStep(db, aiId, tid, now, payloads);
    } else {
      assert ContentText(payloads) == ContentText(payloads[1..]);
      PersistMatchesStream(db, aiId, tid, now, payloads[1..]);
    }
  }

  /** The step of `PersistMatchesStream` for a leading `content` payload. */
  lemma {:induction false} PersistContentStep(db: Db, aiId: nat, tid: ThreadId, now: Timestamp, payloads: seq<Payload>)
    requires Valid(db)
    requires HasRow(db.rows, aiId)
    requires payloads != [] && payloads[0].Content?
    ensures ContentOf(PersistChunks(db, aiId, tid, now, payloads).rows, aiId)
      == Some(ContentOf(db.rows, aiId).value + ContentText(payloads))
    decreases |payloads|, 0
  {
    var c0 := ContentOf(db.rows, aiId).value;
    var c := payloads[0].content;
    var rest := payloads[1..];
    var db1 := AppendChunk(db, aiId, tid, c, now);
    AppendChunkKeepsRow(db, aiId, tid, c, now);
    PersistMatchesStream(db1, aiId, tid, now, rest);
    AppendAssoc(c0, c, ContentText(rest));
  }

  lemma AppendChunkKeepsRow(db: Db, aiId: nat, tid: ThreadId, c: string, now: Timestamp)
    requires Valid(db)
    requires HasRow(db.rows, aiId)
    ensures Valid(AppendChunk(db, aiId, tid, c, now))
    ensures HasRow(AppendChunk(db, aiId, tid, c, now).rows, aiId)
    ensures ContentOf(AppendChunk(db, aiId, tid, c, now).rows, aiId) == Some(ContentOf(db.rows, aiId).value + c)
  {
  }

  // ---- the whole turn ----

  /** A turn's effect on the conversations. A new thread (`created`) gets a
      conversation titled "New Chat" with the turn's time stamp unless one
      already exists under its id; no other conversation appears, and none
      other than the thread's own changes. The thread's own conversation
      keeps its id and time stamp, and its title is either the one it had
      (the placeholder for a new one) or a well-formed title of one to
      three words other than the placeholder. */
  predicate TurnConversations(
    before: map<ThreadId, Conversation>, after: map<ThreadId, Conversation>,
    tid: ThreadId, created: bool, now: Timestamp)
  {
    && after.Keys == before.Keys + (if created then {tid} else {})
    && (forall t :: t in before && t != tid ==> after[t] == before[t])
    && (tid in after ==>
          var prior := if tid in before then before[tid] else Conversation(tid, Title.NewChat, now);
          && after[tid] == prior.(title := after[tid].title)
          && (after[tid].title == prior.title
              || (after[tid].title != Title.NewChat && 0 < |Title.Words(after[tid].title)| <= 3
                  && after[tid].title == Title.JoinWords(Title.Words(after[tid].title)))))
  }

  /** The database right after the user's message is stored: the
      conversation of a new thread exists and the user row is the last
      row. This is the state `maybe_update_title` reads. */
  function WithUserRow(db: Db, message: string, checkpointId: Option<ThreadId>, freshTid: ThreadId, now: Timestamp): Db
    requires Valid(db)
  {
    var tid := if checkpointId.None? then freshTid else checkpointId.value;
    var db1 := if checkpointId.None? then CreateConversation(db, tid, Title.NewChat, now) else db;
    InsertMessage(db1, tid, message, true, now).0
  }

  /** The database work before the event loop: create the conversation of
      a new thread with the placeholder title, store the user message,
      maybe retitle, and add an empty assistant row. Returns the database,
      the thread id and the assistant row's id. */
  function PrepareTurn(
    db: Db, message: string, checkpointId: Option<ThreadId>, freshTid: ThreadId,
    now: Timestamp, llm: string -> LlmReply): (r: (Db, ThreadId, nat))
    requires Valid(db)
    ensures Valid(r.0)
    ensures r.1 == if checkpointId.None? then freshTid else checkpointId.value
    ensures checkpointId.None? ==> r.1 in r.0.conversations
    ensures checkpointId.None? && freshTid !in db.conversations ==>
      r.0.conversations[freshTid].createdAt == now
    ensures |r.0.rows| == |db.rows| + 2
    ensures r.0.rows == db.rows + [r.0.rows[|db.rows|], MessageRow(r.2, r.1, "", false, now)]
    ensures r.0.rows[|db.rows|].threadId == r.1
    ensures r.0.rows[|db.rows|].content == message
    ensures r.0.rows[|db.rows|].isUser
    ensures TurnConversations(db.conversations, r.0.conversations, r.1, checkpointId.None?, now)
    ensures r.0.conversations == MaybeUpdateTitle(WithUserRow(db, message, checkpointId, freshTid, now), r.1, llm).conversations
  {
    var tid := if checkpointId.None? then freshTid else checkpointId.value;
    var db1 := if checkpointId.None? then CreateConversation(db, tid, Title.NewChat, now) else db;
    var (db2, _) := InsertMessage(db1, tid, message, true, now);
    var db3 := MaybeUpdateTitle(db2, tid, llm);
    var (db4, aiId) := InsertMessage(db3, tid, "", false, now);
    assert db4.rows == db.rows + [db2.rows[|db.rows|], MessageRow(aiId, tid, "", false, now)];
    TitleFollowsReply(db2, tid, llm);
    (db4, tid, aiId)
  }

  /** The payloads around the loop's output: `checkpoint` first for a new
      thread, `end` last unless the loop raised. */
  function Frame(checkpointId: Option<ThreadId>, tid: ThreadId, body: Body): seq<Payload>
  {
    (if checkpointId.None? then [Checkpoint(tid)] else [])
    + body.payloads
    + (if body.raised then [] else [End])
  }

  /** One chat turn: the SSE payloads sent, the database afterwards, the
      turn's thread id and the id of the assistant row. */
  datatype Response = Response(payloads: seq<Payload>, db: Db, threadId: ThreadId, assistantId: nat)

  /** A turn's effect on the message table: earlier rows are kept, and the
      turn adds the user's row and then the assistant row, both in the
      turn's thread; the assistant row can be found by its id. */
  predicate TurnRows(before: seq<MessageRow>, after: seq<MessageRow>, message: string, tid: ThreadId, aiId: nat)
  {
    && |after| == |before| + 2
    && after[..|before|] == before
    && after[|before|].threadId == tid
    && after[|before|].content == message
    && after[|before|].isUser
    && after[|before| + 1].id == aiId
    && after[|before| + 1].threadId == tid
    && !after[|before| + 1].isUser
    && HasRow(after, aiId)
  }

  /** The turn's pieces put together: the database work, the loop, the
      appends and the framing. */
  function AssembleTurn(
    db: Db, message: string, checkpointId: Option<ThreadId>, freshTid: ThreadId,
    now: Timestamp, llm: string -> LlmReply, events: seq<GraphEvent>): Response
    requires Valid(db)
  {
    var (db4, tid, aiId) := PrepareTurn(db, message, checkpointId, freshTid, now, llm);
    var body := Transduce(events);
    Response(Frame(checkpointId, tid, body), PersistChunks(db4, aiId, tid, now, body.payloads), tid, aiId)
  }

  /** The message table after a turn. */
  lemma TurnDatabase(
    db: Db, message: string, checkpointId: Option<ThreadId>, freshTid: ThreadId,
    now: Timestamp, llm: string -> LlmReply, events: seq<GraphEvent>)
    requires Valid(db)
    ensures var r := AssembleTurn(db, message, checkpointId, freshTid, now, llm, events);
      && Valid(r.db)
      && r.threadId == (if checkpointId.None? then freshTid else checkpointId.value)
      && TurnRows(db.rows, r.db.rows, message, r.threadId, r.assistantId)
  {
    var (db4, tid, aiId) := PrepareTurn(db, message, checkpointId, freshTid, now, llm);
    var body := Transduce(events);
    var user := db4.rows[|db.rows|];
    AssistantRowKept(db4, db.rows, user, aiId, tid, now, body.payloads);
  }

  /** The conversations after a turn: the loop never touches them. */
  lemma TurnConversationsKept(
    db: Db, message: string, checkpointId: Option<ThreadId>, freshTid: ThreadId,
    now: Timestamp, llm: string -> LlmReply, events: seq<GraphEvent>)
    requires Valid(db)
    ensures var r := AssembleTurn(db, message, checkpointId, freshTid, now, llm, events);
      && TurnConversations(db.conversations, r.db.conversations, r.threadId, checkpointId.None?, now)
      && r.db.conversations == MaybeUpdateTitle(WithUserRow(db, message, checkpointId, freshTid, now), r.threadId, llm).conversations
  {
    var (db4, tid, aiId) := PrepareTurn(db, message, checkpointId, freshTid, now, llm);
    assert PersistChunks(db4, aiId, tid, now, Transduce(events).payloads).conversations == db4.conversations;
  }

  /** The stream side of a turn. */
  lemma TurnStream(
    db: Db, message: string, checkpointId: Option<ThreadId>, freshTid: ThreadId,
    now: Timestamp, llm: string -> LlmReply, events: seq<GraphEvent>)
    requires Valid(db)
    ensures var r := AssembleTurn(db, message, checkpointId, freshTid, now, llm, events);
      && r.payloads == Frame(checkpointId, r.threadId, Transduce(events))
      && ContentOf(r.db.rows, r.assistantId) == Some(ContentText(r.payloads))
      && ContentOf(r.db.rows, r.assistantId) == Some(ChunkText(events))
      && Framed(r.payloads, checkpointId, r.threadId, Transduce(events).raised)
  {
    var (db4, tid, aiId) := PrepareTurn(db, message, checkpointId, freshTid, now, llm);
    var body := Transduce(events);
    FreshAssistantText(db4, aiId, tid, now, checkpointId, body);
    FrameShape(checkpointId, tid, body);
  }

  /** `generate_chat_responses(message, checkpoint_id)`. `freshTid` is the
      `uuid4()` a new conversation receives, `now` the clock reading, `llm`
      the title model and `events` the graph's event stream. The payloads
      are the loop's output framed by `checkpoint` and `end`; the stored
      assistant text is both the text of the `content` payloads sent and
      the text of the model's chunks before the first failure. */
  function GenerateChatResponses(
    db: Db, message: string, checkpointId: Option<ThreadId>, freshTid: ThreadId,
    now: Timestamp, llm: string -> LlmReply, events: seq<GraphEvent>): (r: Response)
    requires Valid(db)
    ensures Valid(r.db)
    ensures r.threadId == if checkpointId.None? then freshTid else checkpointId.value
    ensures TurnRows(db.rows, r.db.rows, message, r.threadId, r.assistantId)
    ensures TurnConversations(db.conversations, r.db.conversations, r.threadId, checkpointId.None?, now)
    ensures r.db.conversations == MaybeUpdateTitle(WithUserRow(db, message, checkpointId, freshTid, now), r.threadId, llm).conversations
    ensures r.payloads == Frame(checkpointId, r.threadId, Transduce(events))
    ensures ContentOf(r.db.rows, r.assistantId) == Some(ContentText(r.payloads))
    ensures ContentOf(r.db.rows, r.assistantId) == Some(ChunkText(events))
    ensures Framed(r.payloads, checkpointId, r.threadId, Transduce(events).raised)
  {
    TurnDatabase(db, message, checkpointId, freshTid, now, llm, events);
    TurnConversationsKept(db, message, checkpointId, freshTid, now, llm, events);
    TurnStream(db, message, checkpointId, freshTid, now, llm, events);
    AssembleTurn(db, message, checkpointId, freshTid, now, llm, events)
  }

  /** A new conversation is titled from its first message: after the turn
      its title is the title model's sanitised answer to the prompt built
      from that message, unless the call raised or the answer sanitised to
      the placeholder, in which case it keeps "New Chat". */
  lemma NewThreadTitle(
    db: Db, message: string, freshTid: ThreadId, now: Timestamp,
    llm: string -> LlmReply, events: seq<GraphEvent>)
    requires Valid(db)
    requires freshTid !in db.conversations
    requires forall i :: 0 <= i < |db.rows| ==> db.rows[i].threadId != freshTid
    ensures var r := GenerateChatResponses(db, message, None, freshTid, now, llm, events);
      var reply := ReplyTitle(llm(TitlePrompt(message)));
      && freshTid in r.db.conversations
      && r.db.conversations[freshTid].title ==
           if reply.Some? && reply.value != Title.NewChat then reply.value else Title.NewChat
  {
    var db1 := CreateConversation(db, freshTid, Title.NewChat, now);
    var db2 := WithUserRow(db, message, None, freshTid, now);
    assert db2 == InsertMessage(db1, freshTid, message, true, now).0;
    FirstMessageOpensGate(db1, freshTid, message, now);
    TitleFollowsReply(db2, freshTid, llm);
  }

  /** Persisting the chunks of a turn keeps the earlier rows and the
      user's row as they were, and the assistant row in its place. */
  lemma AssistantRowKept(
    db: Db, prefix: seq<MessageRow>, user: MessageRow, aiId: nat, tid: ThreadId, now: Timestamp,
    payloads: seq<Payload>)
    requires Valid(db)
    requires db.rows == prefix + [user, MessageRow(aiId, tid, "", false, now)]
    ensures var rows := PersistChunks(db, aiId, tid, now, payloads).rows;
      && |rows| == |prefix| + 2
      && rows[..|prefix| + 1] == prefix + [user]
      && rows[..|prefix|] == prefix
      && rows[|prefix|] == user
      && rows[|prefix| + 1] == MessageRow(aiId, tid, rows[|prefix| + 1].content, false, now)
      && HasRow(rows, aiId)
  {
    var n := |prefix|;
    var rows := PersistChunks(db, aiId, tid, now, payloads).rows;
    assert db.rows[n + 1].id == aiId;
    assert HasRow(db.rows, aiId);
    assert rows[n] == db.rows[n];
    assert rows[..n + 1] == db.rows[..n + 1];
    assert db.rows[..n + 1] == prefix + [user];
    assert rows[n + 1] == db.rows[n + 1].(content := rows[n + 1].content);
    assert HasRow(rows, aiId) by {
      assert rows[n + 1].id == aiId;
    }
  }

  /** An assistant row that starts empty as the table's last row ends up
      holding exactly the text of the framed stream's `content` payloads. */
  lemma FreshAssistantText(db: Db, aiId: nat, tid: ThreadId, now: Timestamp, checkpointId: Option<ThreadId>, body: Body)
    requires Valid(db)
    requires |db.rows| > 0 && db.rows[|db.rows| - 1] == MessageRow(aiId, tid, "", false, now)
    ensures ContentOf(PersistChunks(db, aiId, tid, now, body.payloads).rows, aiId)
      == Some(ContentText(Frame(checkpointId, tid, body)))
    ensures ContentOf(PersistChunks(db, aiId, tid, now, body.payloads).rows, aiId)
      == Some(ContentText(body.payloads))
  {
    ContentAtEnd(db.rows, aiId);
    PersistMatchesStream(db, aiId, tid, now, body.payloads);
    assert "" + ContentText(body.payloads) == ContentText(body.payloads);
    FrameContent(checkpointId, tid, body);
  }

  lemma FrameContent(checkpointId: Option<ThreadId>, tid: ThreadId, body: Body)
    ensures ContentText(Frame(checkpointId, tid, body)) == ContentText(body.payloads)
  {
    var head: seq<Payload> := if checkpointId.None? then [Checkpoint(tid)] else [];
    var tail: seq<Payload> := if body.raised then [] else [End];
    ContentTextAppend(head, body.payloads);
    ContentTextAppend(head + body.payloads, tail);
    assert ContentText(head) == "";
    assert ContentText(tail) == "";
    assert Frame(checkpointId, tid, body) == head + body.payloads + tail;
  }

  /** How a stream is framed. A `checkpoint` payload carrying the thread id
      comes first exactly when the request had no checkpoint id, and never
      anywhere else. Unless the loop stopped on an exception, the stream
      ends with `end`, which occurs exactly once; after an exception no
      `end` is sent at all. */
  predicate Framed(ps: seq<Payload>, checkpointId: Option<ThreadId>, tid: ThreadId, raised: bool)
  {
    && (checkpointId.None? <==> (|ps| > 0 && ps[0].Checkpoint?))
    && (checkpointId.None? ==> ps[0] == Checkpoint(tid))
    && (forall i :: 0 < i < |ps| ==> !ps[i].Checkpoint?)
    && (!raised ==> |ps| > 0 && ps[|ps| - 1] == End && multiset(ps)[End] == 1)
    && (raised ==> multiset(ps)[End] == 0)
  }

  lemma FrameShape(checkpointId: Option<ThreadId>, tid: ThreadId, body: Body)
    requires forall i :: 0 <= i < |body.payloads| ==> !body.payloads[i].Checkpoint? && !body.payloads[i].End?
    ensures Framed(Frame(checkpointId, tid, body), checkpointId, tid, body.raised)
  {
    var head: seq<Payload> := if checkpointId.None? then [Checkpoint(tid)] else [];
    var tail: seq<Payload> := if body.raised then [] else [End];
    var ps := Frame(checkpointId, tid, body);
    assert ps == head + body.payloads + tail;
    assert End !in body.payloads;
    assert multiset(ps) == multiset(head) + multiset(body.payloads) + multiset(tail);
    assert !body.raised ==> multiset(tail)[End] == 1;
    assert checkpointId.Some? && |ps| > 0 ==> ps[0] == (body.payloads + tail)[0];
  }
}

/** The chat page's controller (`Home` in page.tsx): `handleSubmit` adds
    the user's message and a loading assistant placeholder, and the event
    source's `onmessage` and `onerror` callbacks fold the server's events
    into that placeholder.

    React state becomes a `Ui` value and the callbacks' closure variables
    (`streamedContent`, `searchData`, whether the source is still open)
    become a `Stream` value; every callback is a function from the pair to
    the next pair. */
module Page {
  import opened Basics

  /** A search stage shown under an assistant message. */
  datatype Stage = Searching | Reading | Writing | Errored

  /** `SearchInfo`, with the `error` field `search_error` adds. */
  datatype SearchInfo = SearchInfo(stages: seq<Stage>, query: string, urls: seq<string>, error: Option<string>)

  /** `Message`; `kind` is the `type` field. */
  datatype Message = Message(
    id: int, content: string, isUser: bool, kind: string,
    isLoading: Option<bool>, searchInfo: Option<SearchInfo>)

  /** A parsed server event, by its `type`; `Malformed` is data that
      `JSON.parse` rejects. */
  datatype ServerEvent =
    | SCheckpoint(checkpointId: string)
    | SContent(content: string)
    | SSearchStart(query: string)
    | SSearchResults(urls: seq<string>)
    | SSearchError(error: string)
    | SEnd
    | SOther(kind: string)
    | Malformed

  /** The React state of the page. */
  datatype Ui = Ui(messages: seq<Message>, currentMessage: string, checkpointId: Option<string>)

  /** The closure state of one open event source: the placeholder's id, the
      text streamed so far, the latest search info, and whether the source
      is still open. */
  datatype Stream = Stream(aiId: int, streamed: string, searchData: Option<SearchInfo>, open: bool)

  datatype Session = Session(ui: Ui, stream: Stream)

  /** The chat request: the message and the checkpoint query parameter. */
  datatype Request = Request(message: string, checkpointId: Option<string>)

  const Greeting: Message := Message(1, "Hi there, how can I help you?", false, "message", None, None)

  /** The page's initial state. */
  const InitialUi: Ui := Ui([Greeting], "", None)

  const StreamErrorText: string := "Sorry, there was an error processing your request."

  const ConnectErrorText: string := "Sorry, there was an error connecting to the server."

  // ---- handleSubmit ----

  /** The characters JavaScript's `String.prototype.trim` removes. */
  predicate IsJsSpace(c: char)
  {
    c in {
      '\U{0009}', '\U{000A}', '\U{000B}', '\U{000C}', '\U{000D}', '\U{0020}',
      '\U{00A0}', '\U{1680}',
      '\U{2000}', '\U{2001}', '\U{2002}', '\U{2003}', '\U{2004}', '\U{2005}',
      '\U{2006}', '\U{2007}', '\U{2008}', '\U{2009}', '\U{200A}',
      '\U{2028}', '\U{2029}', '\U{202F}', '\U{205F}', '\U{3000}', '\U{FEFF}'
    }
  }

  /** `text.trim()` is the empty string. */
  predicate IsBlank(text: string)
  {
    forall i :: 0 <= i < |text| ==> IsJsSpace(text[i])
  }

  predicate DistinctIds(msgs: seq<Message>)
  {
    forall i, j :: 0 <= i < j < |msgs| ==> msgs[i].id != msgs[j].id
  }

  /** `Math.max(...messages.map((msg) => msg.id))`. */
  function MaxId(msgs: seq<Message>): (m: int)
    requires |msgs| > 0
    ensures forall i :: 0 <= i < |msgs| ==> msgs[i].id <= m
    ensures exists i :: 0 <= i < |msgs| && msgs[i].id == m
  {
    if |msgs| == 1 then msgs[0].id
    else
      var rest := MaxId(msgs[1..]);
      assert forall i :: 1 <= i < |msgs| ==> msgs[i] == msgs[1..][i - 1];
      if msgs[0].id >= rest then msgs[0].id else rest
  }

  /** The id of a new user message: one above the largest id, or 1. */
  function NewMessageId(msgs: seq<Message>): (id: int)
    ensures forall i :: 0 <= i < |msgs| ==> msgs[i].id < id
    ensures |msgs| == 0 ==> id == 1
    ensures |msgs| > 0 ==> exists i :: 0 <= i < |msgs| && msgs[i].id == id - 1
  {
    if |msgs| > 0 then MaxId(msgs) + 1 else 1
  }

  function UserMessage(id: int, text: string): Message
  {
    Message(id, text, true, "message", None, None)
  }

  /** The loading assistant message the stream fills in. */
  function Placeholder(id: int): Message
  {
    Message(id, "", false, "message", Some(true), Some(SearchInfo([], "", [], None)))
  }

  /** The message of the `catch` branch, when the event source cannot be
      set up. */
  function ConnectError(id: int): Message
  {
    Message(id, ConnectErrorText, false, "message", Some(false), None)
  }

  /** The `checkpoint_id` parameter is added only for a truthy checkpoint:
      present and not the empty string. */
  function RequestCheckpoint(cp: Option<string>): (r: Option<string>)
    ensures r.Some? <==> cp.Some? && cp.value != ""
    ensures r.Some? ==> r == cp
  {
    if cp.Some? && cp.value != "" then cp else None
  }

  /** An opened event source: its closure state and the request it sent. */
  datatype Connection = Connection(stream: Stream, request: Request)

  /** The outcome of `handleSubmit`: nothing, or the new page state with the
      opened connection (`None` when setting it up threw). */
  datatype Submission = Ignored | Submitted(ui: Ui, connection: Option<Connection>)

  /** `handleSubmit` as page.tsx writes it. `setupFails` says whether
      building the URL or the `EventSource` threw; the `catch` branch then
      appends a second message with the placeholder's id. */
  function SubmitAsWritten(ui: Ui, setupFails: bool): (r: Submission)
    ensures IsBlank(ui.currentMessage) <==> r.Ignored?
    ensures r.Submitted? ==>
      var n := |ui.messages|;
      var newId := NewMessageId(ui.messages);
      && |r.ui.messages| == n + (if setupFails then 3 else 2)
      && r.ui.messages[..n] == ui.messages
      && r.ui.messages[n] == UserMessage(newId, ui.currentMessage)
      && r.ui.messages[n + 1] == Placeholder(newId + 1)
      && r.ui.currentMessage == ""
      && r.ui.checkpointId == ui.checkpointId
      && (r.connection.None? <==> setupFails)
      && (setupFails ==> r.ui.messages[n + 2] == ConnectError(newId + 1))
      && (!setupFails ==>
            && r.connection.value.stream == Stream(newId + 1, "", None, true)
            && r.connection.value.request == Request(ui.currentMessage, RequestCheckpoint(ui.checkpointId)))
  {
    if IsBlank(ui.currentMessage) then Ignored
    else
      var newId := NewMessageId(ui.messages);
      var msgs := ui.messages + [UserMessage(newId, ui.currentMessage), Placeholder(newId + 1)];
      if setupFails then
        Submitted(Ui(msgs + [ConnectError(newId + 1)], "", ui.checkpointId), None)
      else
        Submitted(Ui(msgs, "", ui.checkpointId),
          Some(Connection(Stream(newId + 1, "", None, true),
                          Request(ui.currentMessage, RequestCheckpoint(ui.checkpointId)))))
  }

  /** When setup throws, the page as written shows two messages with the
      same id: the placeholder and the connection error. */
  lemma SetupFailureDuplicatesId(ui: Ui)
    requires !IsBlank(ui.currentMessage)
    ensures var s := SubmitAsWritten(ui, true);
      && s.Submitted?
      && |s.ui.messages| == |ui.messages| + 3
      && s.ui.messages[|ui.messages| + 1].id == s.ui.messages[|ui.messages| + 2].id
      && !DistinctIds(s.ui.messages)
  {
    var s := SubmitAsWritten(ui, true);
    assert s.ui.messages[|ui.messages| + 1].id == s.ui.messages[|ui.messages| + 2].id;
  }

  /** `handleSubmit` with the `catch` branch corrected: the connection error
      takes the placeholder's place instead of being added beside it.
      A blank input changes nothing. Otherwise exactly two messages are
      appended, in order: the user message with the next id, and the
      placeholder (or, when setup throws, the error) with the id after it.
      Distinct ids stay distinct. */
  function Submit(ui: Ui, setupFails: bool): (r: Submission)
    ensures IsBlank(ui.currentMessage) <==> r.Ignored?
    ensures r.Submitted? ==>
      var n := |ui.messages|;
      var newId := NewMessageId(ui.messages);
      && |r.ui.messages| == n + 2
      && r.ui.messages[..n] == ui.messages
      && r.ui.messages[n] == UserMessage(newId, ui.currentMessage)
      && r.ui.messages[n + 1].id == newId + 1
      && r.ui.currentMessage == ""
      && r.ui.checkpointId == ui.checkpointId
      && (r.connection.None? <==> setupFails)
      && (!setupFails ==>
            && r.ui.messages[n + 1] == Placeholder(newId + 1)
            && r.connection.value.stream == Stream(newId + 1, "", None, true)
            && r.connection.value.request == Request(ui.currentMessage, RequestCheckpoint(ui.checkpointId)))
      && (setupFails ==> r.ui.messages[n + 1] == ConnectError(newId + 1))
    ensures r.Submitted? && DistinctIds(ui.messages) ==> DistinctIds(r.ui.messages)
  {
    if IsBlank(ui.currentMessage) then Ignored
    else
      var newId := NewMessageId(ui.messages);
      var reply := if setupFails then ConnectError(newId + 1) else Placeholder(newId + 1);
      var msgs := ui.messages + [UserMessage(newId, ui.currentMessage), reply];
      var connection :=
        if setupFails then None
        else Some(Connection(Stream(newId + 1, "", None, true),
                             Request(ui.currentMessage, RequestCheckpoint(ui.checkpointId))));
      assert msgs[..|ui.messages|] == ui.messages;
      AppendFreshIds(ui.messages, UserMessage(newId, ui.currentMessage), reply);
      Submitted(Ui(msgs, "", ui.checkpointId), connection)
  }

  /** Two messages with ids above every existing id, in increasing order,
      keep ids distinct. */
  lemma AppendFreshIds(msgs: seq<Message>, a: Message, b: Message)
    requires forall i :: 0 <= i < |msgs| ==> msgs[i].id < a.id
    requires a.id < b.id
    ensures DistinctIds(msgs) ==> DistinctIds(msgs + [a, b])
  {
  }

  /** The first message typed on a fresh page gets id 2, after the
      greeting's 1, and its placeholder id 3. */
  lemma FirstSubmitIds(text: string)
    requires !IsBlank(text)
    ensures Submit(InitialUi.(currentMessage := text), false).ui.messages
      == [Greeting, UserMessage(2, text), Placeholder(3)]
  {
    var ui := InitialUi.(currentMessage := text);
    assert NewMessageId(ui.messages) == 2;
  }

  /** With a working connection the corrected submission is the one page.tsx
      performs. */
  lemma SubmitAgreesWhenSetupSucceeds(ui: Ui)
    ensures Submit(ui, false) == SubmitAsWritten(ui, false)
  {
  }

  // ---- onmessage / onerror ----

  /** The update `{...msg, content?, searchInfo?, isLoading: false}` applied
      to every message whose id is `id`. */
  function UpdateTarget(msgs: seq<Message>, id: int, content: Option<string>, info: Option<SearchInfo>): (r: seq<Message>)
    ensures |r| == |msgs|
    ensures forall i :: 0 <= i < |msgs| && msgs[i].id != id ==> r[i] == msgs[i]
    ensures forall i :: 0 <= i < |msgs| && msgs[i].id == id ==>
      && r[i].id == id && r[i].isUser == msgs[i].isUser && r[i].kind == msgs[i].kind
      && r[i].content == (if content.Some? then content.value else msgs[i].content)
      && r[i].searchInfo == (if info.Some? then info else msgs[i].searchInfo)
      && r[i].isLoading == Some(false)
  {
    if msgs == [] then []
    else
      var m := msgs[0];
      var m' := if m.id != id then m
        else m.(content := if content.Some? then content.value else m.content,
                searchInfo := if info.Some? then info else m.searchInfo,
                isLoading := Some(false));
      [m'] + UpdateTarget(msgs[1..], id, content, info)
  }

  /** `after` differs from `before` at most in the messages with id `id`,
      and those keep their id, author and kind. */
  predicate OnlyTargetChanged(before: seq<Message>, after: seq<Message>, id: int)
  {
    && |after| == |before|
    && (forall i :: 0 <= i < |before| && before[i].id != id ==> after[i] == before[i])
    && (forall i :: 0 <= i < |before| ==>
          after[i].id == before[i].id && after[i].isUser == before[i].isUser && after[i].kind == before[i].kind)
  }

  function PriorStages(sd: Option<SearchInfo>): seq<Stage>
  {
    if sd.Some? then sd.value.stages else []
  }

  /** `searchData?.query || ""`. */
  function PriorQuery(sd: Option<SearchInfo>): string
  {
    if sd.Some? then sd.value.query else ""
  }

  /** The `onmessage` callback. Once the source is closed no event arrives. */
  function OnMessage(s: Session, e: ServerEvent): (r: Session)
    ensures !s.stream.open ==> r == s
    ensures r.stream.aiId == s.stream.aiId
    ensures OnlyTargetChanged(s.ui.messages, r.ui.messages, s.stream.aiId)
    ensures r.ui.currentMessage == s.ui.currentMessage
    ensures r.stream.open <==> s.stream.open && !e.SEnd?
    ensures !(e.SSearchStart? || e.SSearchResults? || e.SSearchError?) ==>
      r.stream.searchData == s.stream.searchData
    ensures !(e.SSearchStart? || e.SSearchResults? || e.SSearchError?) && s.stream.searchData.None? ==>
      forall i :: 0 <= i < |s.ui.messages| ==> r.ui.messages[i].searchInfo == s.ui.messages[i].searchInfo
  {
    if !s.stream.open then s
    else
      var ui, st := s.ui, s.stream;
      match e
      case SCheckpoint(cp) => Session(ui.(checkpointId := Some(cp)), st)
      case SContent(chunk) =>
        var text := st.streamed + chunk;
        Session(ui.(messages := UpdateTarget(ui.messages, st.aiId, Some(text), None)),
                st.(streamed := text))
      case SSearchStart(q) =>
        var info := SearchInfo([Searching], q, [], None);
        Session(ui.(messages := UpdateTarget(ui.messages, st.aiId, Some(st.streamed), Some(info))),
                st.(searchData := Some(info)))
      case SSearchResults(urls) =>
        var info := SearchInfo(PriorStages(st.searchData) + [Reading], PriorQuery(st.searchData), urls, None);
        Session(ui.(messages := UpdateTarget(ui.messages, st.aiId, Some(st.streamed), Some(info))),
                st.(searchData := Some(info)))
      case SSearchError(err) =>
        var info := SearchInfo(PriorStages(st.searchData) + [Errored], PriorQuery(st.searchData), [], Some(err));
        Session(ui.(messages := UpdateTarget(ui.messages, st.aiId, Some(st.streamed), Some(info))),
                st.(searchData := Some(info)))
      case SEnd =>
        var msgs :=
          if st.searchData.Some? then
            var sd := st.searchData.value;
            UpdateTarget(ui.messages, st.aiId, None, Some(sd.(stages := sd.stages + [Writing])))
          else ui.messages;
        Session(ui.(messages := msgs), st.(open := false))
      case SOther(_) => s
      case Malformed => s
  }

  /** The `onerror` callback: the source is closed, and the placeholder
      shows the error text only if nothing has been streamed into it. */
  function OnError(s: Session): (r: Session)
    ensures !r.stream.open
    ensures r.stream.streamed == s.stream.streamed && r.stream.searchData == s.stream.searchData
    ensures r.ui.checkpointId == s.ui.checkpointId
    ensures OnlyTargetChanged(s.ui.messages, r.ui.messages, s.stream.aiId)
    ensures s.stream.open && s.stream.streamed == "" ==> forall i :: 0 <= i < |r.ui.messages| ==>
      r.ui.messages[i].id == s.stream.aiId ==>
        r.ui.messages[i].content == StreamErrorText && r.ui.messages[i].isLoading == Some(false)
    ensures !s.stream.open || s.stream.streamed != "" ==> r.ui.messages == s.ui.messages
  {
    if !s.stream.open then s
    else
      var msgs :=
        if s.stream.streamed == "" then UpdateTarget(s.ui.messages, s.stream.aiId, Some(StreamErrorText), None)
        else s.ui.messages;
      Session(s.ui.(messages := msgs), s.stream.(open := false))
  }

  /** A sequence of events delivered one by one. */
  function Feed(s: Session, es: seq<ServerEvent>): Session
    decreases |es|
  {
    if es == [] then s else Feed(OnMessage(s, es[0]), es[1..])
  }

  /** Whatever events arrive, only the placeholder's messages change, and
      they keep their id, author and kind. */
  lemma {:induction false} FeedOnlyChangesTarget(s: Session, es: seq<ServerEvent>)
    ensures Feed(s, es).stream.aiId == s.stream.aiId
    ensures OnlyTargetChanged(s.ui.messages, Feed(s, es).ui.messages, s.stream.aiId)
    decreases |es|
  {
    if es != [] {
      FeedOnlyChangesTarget(OnMessage(s, es[0]), es[1..]);
    }
  }

  /** The text of the `content` events up to the first `end`, after which
      the source is closed. */
  function ContentUntilEnd(es: seq<ServerEvent>): string
  {
    if es == [] || es[0].SEnd? then ""
    else (if es[0].SContent? then es[0].content else "") + ContentUntilEnd(es[1..])
  }

  /** While the source is open the placeholder shows exactly the streamed
      text. */
  predicate Mirrors(s: Session)
  {
    forall i :: 0 <= i < |s.ui.messages| && s.ui.messages[i].id == s.stream.aiId ==>
      s.ui.messages[i].content == s.stream.streamed
  }

  /** Content accumulates: after any events, the streamed text is the
      earlier text followed by every chunk received before `end`, and the
      placeholder shows exactly that text. */
  lemma {:induction false} FeedAccumulatesContent(s: Session, es: seq<ServerEvent>)
    requires s.stream.open
    requires Mirrors(s)
    ensures Feed(s, es).stream.streamed == s.stream.streamed + ContentUntilEnd(es)
    ensures Mirrors(Feed(s, es))
    decreases |es|
  {
    if es == [] {
      assert s.stream.streamed + "" == s.stream.streamed;
    } else {
      var s1 := OnMessage(s, es[0]);
      assert Mirrors(s1);
      if es[0].SEnd? {
        assert Feed(s1, es[1..]) == s1 by { ClosedIgnoresEvents(s1, es[1..]); }
        assert s.stream.streamed + "" == s.stream.streamed;
      } else {
        FeedAccumulatesContent(s1, es[1..]);
        var c := if es[0].SContent? then es[0].content else "";
        assert s1.stream.streamed == s.stream.streamed + c;
        assert ContentUntilEnd(es) == c + ContentUntilEnd(es[1..]);
        assert (s.stream.streamed + c) + ContentUntilEnd(es[1..]) == s.stream.streamed + (c + ContentUntilEnd(es[1..]));
      }
    }
  }

  /** After the source is closed, later events change nothing. */
  lemma {:induction false} ClosedIgnoresEvents(s: Session, es: seq<ServerEvent>)
    requires !s.stream.open
    ensures Feed(s, es) == s
    decreases |es|
  {
    if es != [] {
      ClosedIgnoresEvents(OnMessage(s, es[0]), es[1..]);
    }
  }

  /** The concatenation of the chunks of `content` events. */
  function Chunks(es: seq<ServerEvent>): string
  {
    if es == [] then "" else (if es[0].SContent? then es[0].content else "") + Chunks(es[1..])
  }

  /** A run of `content` events leaves the placeholder holding the earlier
      text followed by all chunks, in order, and no longer loading. */
  lemma ContentEventsConcatenate(s: Session, es: seq<ServerEvent>)
    requires s.stream.open
    requires Mirrors(s)
    requires |es| > 0
    requires forall k :: 0 <= k < |es| ==> es[k].SContent?
    ensures forall i :: 0 <= i < |Feed(s, es).ui.messages| && Feed(s, es).ui.messages[i].id == s.stream.aiId ==>
      && Feed(s, es).ui.messages[i].content == s.stream.streamed + Chunks(es)
      && Feed(s, es).ui.messages[i].isLoading == Some(false)
  {
    ChunksUntilEnd(es);
    FeedAccumulatesContent(s, es);
    FeedOnlyChangesTarget(s, es);
    ContentEventsStopLoading(s, es);
  }

  /** After a run of `content` events the placeholder is no longer
      loading. */
  lemma {:induction false} ContentEventsStopLoading(s: Session, es: seq<ServerEvent>)
    requires s.stream.open
    requires |es| > 0
    requires forall k :: 0 <= k < |es| ==> es[k].SContent?
    ensures forall i :: 0 <= i < |Feed(s, es).ui.messages| && Feed(s, es).ui.messages[i].id == s.stream.aiId ==>
      Feed(s, es).ui.messages[i].isLoading == Some(false)
    decreases |es|
  {
    var s1 := OnMessage(s, es[0]);
    if |es| > 1 {
      assert forall k :: 0 <= k < |es[1..]| ==> es[1..][k] == es[k + 1];
      ContentEventsStopLoading(s1, es[1..]);
    }
  }

  lemma {:induction false} ChunksUntilEnd(es: seq<ServerEvent>)
    requires forall k :: 0 <= k < |es| ==> es[k].SContent?
    ensures ContentUntilEnd(es) == Chunks(es)
  {
    if es != [] {
      assert forall k :: 0 <= k < |es[1..]| ==> es[1..][k] == es[k + 1];
      ChunksUntilEnd(es[1..]);
    }
  }

  /** What each search event does to the search info, and that `checkpoint`
      touches no message. `search_start` resets the stages to `searching`
      with the new query and no urls; `search_results` appends `reading`,
      keeps the query and takes the new urls; `search_error` appends
      `error` and clears the urls; `end` shows `writing` after the stages
      only if a search event came earlier, and otherwise leaves the
      messages alone. */
  lemma SearchEventEffects(s: Session, e: ServerEvent)
    requires s.stream.open
    ensures var r := OnMessage(s, e);
      var sd := s.stream.searchData;
      && (e.SCheckpoint? ==> r.ui.messages == s.ui.messages && r.ui.checkpointId == Some(e.checkpointId))
      && (e.SSearchStart? ==> r.stream.searchData == Some(SearchInfo([Searching], e.query, [], None)))
      && (e.SSearchResults? ==> (r.stream.searchData.Some?
            && r.stream.searchData.value.stages == PriorStages(sd) + [Reading]
            && r.stream.searchData.value.query == PriorQuery(sd)
            && r.stream.searchData.value.urls == e.urls))
      && (e.SSearchError? ==> (r.stream.searchData.Some?
            && r.stream.searchData.value.stages == PriorStages(sd) + [Errored]
            && r.stream.searchData.value.query == PriorQuery(sd)
            && r.stream.searchData.value.urls == []))
      && (e.SEnd? && sd.None? ==> r.ui.messages == s.ui.messages)
      && (e.SEnd? && sd.Some? ==> forall i :: 0 <= i < |r.ui.messages| && r.ui.messages[i].id == s.stream.aiId ==>
            r.ui.messages[i].searchInfo == Some(sd.value.(stages := sd.value.stages + [Writing])))
      && (e.SSearchStart? || e.SSearchResults? || e.SSearchError? ==>
            forall i :: 0 <= i < |r.ui.messages| && r.ui.messages[i].id == s.stream.aiId ==>
              r.ui.messages[i].searchInfo == r.stream.searchData)
  {
  }

  /** Without search events nothing about searching is shown: a source
      that starts with no search data keeps none, and every message keeps
      its search info. In particular `end` adds `writing` only after an
      earlier search event. */
  lemma {:induction false} NoSearchNoStages(s: Session, es: seq<ServerEvent>)
    requires s.stream.searchData.None?
    requires forall k :: 0 <= k < |es| ==> !(es[k].SSearchStart? || es[k].SSearchResults? || es[k].SSearchError?)
    ensures Feed(s, es).stream.searchData.None?
    ensures |Feed(s, es).ui.messages| == |s.ui.messages|
    ensures forall i :: 0 <= i < |s.ui.messages| ==>
      Feed(s, es).ui.messages[i].searchInfo == s.ui.messages[i].searchInfo
    decreases |es|
  {
    if es != [] {
      var s1 := OnMessage(s, es[0]);
      assert forall k :: 0 <= k < |es[1..]| ==> es[1..][k] == es[k + 1];
      NoSearchNoStages(s1, es[1..]);
    }
  }

  /** The shape of the stage list kept between events: never empty,
      `searching` only in front, and never `writing`, which is only ever
      shown, never stored. */
  predicate StagesWellFormed(sd: Option<SearchInfo>)
  {
    sd.Some? ==>
      && |sd.value.stages| > 0
      && (forall i :: 0 < i < |sd.value.stages| ==> sd.value.stages[i] != Searching)
      && (forall i :: 0 <= i < |sd.value.stages| ==> sd.value.stages[i] != Writing)
  }

  /** Between two `search_start` events the stage list only grows at its
      end, and it keeps its shape throughout. */
  lemma {:induction false} StagesOnlyGrow(s: Session, es: seq<ServerEvent>)
    requires StagesWellFormed(s.stream.searchData)
    requires forall k :: 0 <= k < |es| ==> !es[k].SSearchStart?
    ensures StagesWellFormed(Feed(s, es).stream.searchData)
    ensures s.stream.searchData.Some? ==> (Feed(s, es).stream.searchData.Some?
      && s.stream.searchData.value.stages <= Feed(s, es).stream.searchData.value.stages)
    decreases |es|
  {
    if es != [] {
      var s1 := OnMessage(s, es[0]);
      assert StagesWellFormed(s1.stream.searchData);
      assert s.stream.searchData.Some? ==> (s1.stream.searchData.Some?
        && s.stream.searchData.value.stages <= s1.stream.searchData.value.stages);
      assert forall k :: 0 <= k < |es[1..]| ==> es[1..][k] == es[k + 1];
      StagesOnlyGrow(s1, es[1..]);
    }
  }

  /** Any single event keeps the stage list well formed, `search_start`
      included. */
  lemma OnMessageKeepsStages(s: Session, e: ServerEvent)
    requires StagesWellFormed(s.stream.searchData)
    ensures StagesWellFormed(OnMessage(s, e).stream.searchData)
  {
  }
}

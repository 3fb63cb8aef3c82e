/** The two halves together: the page submits a message, the backend
    answers one chat turn, and the page folds the answer's events into its
    placeholder. The payload datatypes of the two sides meet through JSON,
    which is modelled as the field-by-field translation `ToServerEvent`. */
module EndToEnd {
  import opened Basics
  import CS = ChatStream
  import Store
  import TitleGate
  import opened Page

  /** A backend payload as the page parses it. */
  function ToServerEvent(p: CS.Payload): (e: ServerEvent)
    ensures p.Content? <==> e.SContent?
    ensures p.Content? ==> e.content == p.content
    ensures p.End? <==> e.SEnd?
    ensures p.Checkpoint? <==> e.SCheckpoint?
    ensures p.Checkpoint? ==> e.checkpointId == p.checkpointId
    ensures p.SearchStart? <==> e.SSearchStart?
    ensures p.SearchStart? ==> e.query == p.query
    ensures p.SearchResults? <==> e.SSearchResults?
    ensures p.SearchResults? ==> e.urls == p.urls
  {
    match p
    case Checkpoint(id) => SCheckpoint(id)
    case Content(c) => SContent(c)
    case SearchStart(q) => SSearchStart(q)
    case SearchResults(urls) => SSearchResults(urls)
    case End => SEnd
  }

  /** The events the page receives for a backend stream, in order. */
  function Delivered(ps: seq<CS.Payload>): (es: seq<ServerEvent>)
    ensures |es| == |ps|
    ensures forall i :: 0 <= i < |ps| ==> es[i] == ToServerEvent(ps[i])
  {
    if ps == [] then [] else [ToServerEvent(ps[0])] + Delivered(ps[1..])
  }

  /** When `end` can only come last, the page collects exactly the text of
      the backend's `content` payloads. */
  lemma {:induction false} DeliveredContent(ps: seq<CS.Payload>)
    requires forall i :: 0 <= i < |ps| - 1 ==> !ps[i].End?
    ensures ContentUntilEnd(Delivered(ps)) == CS.ContentText(ps)
  {
    if ps != [] {
      if ps[0].End? {
        assert |ps| == 1;
        assert CS.ContentText(ps) == "" + CS.ContentText(ps[1..]);
      } else {
        assert Delivered(ps)[1..] == Delivered(ps[1..]);
        DeliveredContent(ps[1..]);
      }
    }
  }

  /** Events without `checkpoint` leave the page's checkpoint alone. */
  lemma {:induction false} FeedKeepsCheckpoint(s: Session, es: seq<ServerEvent>)
    requires forall i :: 0 <= i < |es| ==> !es[i].SCheckpoint?
    ensures Feed(s, es).ui.checkpointId == s.ui.checkpointId
    decreases |es|
  {
    if es != [] {
      assert forall i :: 0 <= i < |es[1..]| ==> es[1..][i] == es[i + 1];
      FeedKeepsCheckpoint(OnMessage(s, es[0]), es[1..]);
    }
  }

  /** An `end` event closes the source. */
  lemma {:induction false} FeedClosesOnEnd(s: Session, es: seq<ServerEvent>)
    requires |es| > 0 && es[|es| - 1].SEnd?
    ensures !Feed(s, es).stream.open
    decreases |es|
  {
    var s1 := OnMessage(s, es[0]);
    if |es| == 1 {
      assert Feed(s, es) == Feed(s1, []);
      if s.stream.open {
        assert !s1.stream.open;
      } else {
        assert s1 == s;
      }
      if !s.stream.open {
        ClosedStaysClosed(s);
      }
    } else {
      FeedClosesOnEnd(s1, es[1..]);
    }
  }

  lemma ClosedStaysClosed(s: Session)
    requires !s.stream.open
    ensures !OnMessage(s, SEnd).stream.open
  {
  }

  /** Without `end` an open source stays open, and the assistant id
      never changes. */
  lemma {:induction false} FeedStaysOpen(s: Session, es: seq<ServerEvent>)
    ensures Feed(s, es).stream.aiId == s.stream.aiId
    ensures s.stream.open && (forall i :: 0 <= i < |es| ==> !es[i].SEnd?) ==> Feed(s, es).stream.open
    decreases |es|
  {
    if es != [] {
      assert forall i :: 0 <= i < |es[1..]| ==> es[1..][i] == es[i + 1];
      FeedStaysOpen(OnMessage(s, es[0]), es[1..]);
    }
  }

  /** A framed stream has `end` only as its last element. */
  lemma EndOnlyLast(ps: seq<CS.Payload>)
    requires multiset(ps)[CS.End] == 0 || (|ps| > 0 && ps[|ps| - 1] == CS.End && multiset(ps)[CS.End] == 1)
    ensures forall i :: 0 <= i < |ps| - 1 ==> !ps[i].End?
  {
    forall i | 0 <= i < |ps| - 1 ensures !ps[i].End? {
      if ps[i].End? {
        assert CS.End in multiset(ps);
        TwoEnds(ps, i);
      }
    }
  }

  /** A stream with `end` before its last element has `end` twice. */
  lemma TwoEnds(ps: seq<CS.Payload>, i: nat)
    requires i < |ps| - 1
    requires ps[i].End? && ps[|ps| - 1].End?
    ensures multiset(ps)[CS.End] >= 2
  {
    var j := |ps| - 1;
    assert ps == ps[..i] + [ps[i]] + ps[i + 1..j] + [ps[j]];
    assert multiset(ps) == multiset(ps[..i]) + multiset{CS.End} + multiset(ps[i + 1..j]) + multiset{CS.End};
  }

  /** A stream that opens with the thread id and never repeats a
      checkpoint leaves the page on that thread. */
  lemma PageLearnsThread(s: Session, ps: seq<CS.Payload>, tid: string)
    requires s.stream.open
    requires |ps| > 0 && ps[0] == CS.Checkpoint(tid)
    requires forall i :: 0 < i < |ps| ==> !ps[i].Checkpoint?
    ensures Feed(s, Delivered(ps)).ui.checkpointId == Some(tid)
  {
    var es := Delivered(ps);
    var s1 := OnMessage(s, es[0]);
    assert s1.ui.checkpointId == Some(tid);
    assert Feed(s, es) == Feed(s1, es[1..]);
    assert forall i :: 0 <= i < |es[1..]| ==> es[1..][i] == ToServerEvent(ps[i + 1]);
    FeedKeepsCheckpoint(s1, es[1..]);
  }

  /** The stream closes with `end`. A response that stops without it ends
      the connection instead, and the `EventSource` then reports an
      error. */
  predicate Ended(ps: seq<CS.Payload>)
  {
    |ps| > 0 && ps[|ps| - 1] == CS.End
  }

  /** A framed stream ends with `end` exactly when the loop did not
      raise. */
  lemma FramedEnded(ps: seq<CS.Payload>, checkpointId: Option<Store.ThreadId>, tid: Store.ThreadId, raised: bool)
    requires CS.Framed(ps, checkpointId, tid, raised)
    ensures Ended(ps) <==> !raised
  {
    if raised && |ps| > 0 {
      assert ps[|ps| - 1] in multiset(ps);
    }
  }

  /** The `onerror` callback after a stream that stopped without `end`:
      the source closes, and the placeholder at index `n + 1` shows the
      error text exactly when nothing was streamed into it. */
  lemma ErrorEndsTurn(s: Session, n: nat)
    requires s.stream.open
    requires |s.ui.messages| == n + 2 && s.ui.messages[n + 1].id == s.stream.aiId
    requires forall i :: 0 <= i < n + 1 ==> s.ui.messages[i].id != s.stream.aiId
    ensures var r := OnError(s);
      && !r.stream.open
      && r.ui.checkpointId == s.ui.checkpointId
      && |r.ui.messages| == n + 2
      && r.ui.messages[..n + 1] == s.ui.messages[..n + 1]
      && r.ui.messages[n + 1].id == s.stream.aiId
      && r.ui.messages[n + 1].content == if s.stream.streamed == "" then StreamErrorText else s.ui.messages[n + 1].content
  {
    var r := OnError(s);
    assert forall i :: 0 <= i < n + 1 ==> r.ui.messages[i] == s.ui.messages[i];
  }

  /** Feeding a stream to a session whose only message with the assistant
      id sits at index `n + 1`, freshly opened with nothing streamed. */
  lemma FeedTurn(s: Session, n: nat, ps: seq<CS.Payload>)
    requires s.stream.open && s.stream.streamed == "" && Mirrors(s)
    requires |s.ui.messages| == n + 2 && s.ui.messages[n + 1].id == s.stream.aiId
    requires forall i :: 0 <= i < n + 1 ==> s.ui.messages[i].id != s.stream.aiId
    requires forall i :: 0 <= i < |ps| - 1 ==> !ps[i].End?
    ensures var fin := Feed(s, Delivered(ps));
      && |fin.ui.messages| == n + 2
      && fin.ui.messages[..n + 1] == s.ui.messages[..n + 1]
      && fin.ui.messages[n + 1].id == s.stream.aiId
      && fin.ui.messages[n + 1].content == CS.ContentText(ps)
      && fin.stream.streamed == CS.ContentText(ps)
      && fin.stream.aiId == s.stream.aiId
      && (fin.stream.open <==> !Ended(ps))
      && (forall i :: 0 <= i < n + 1 ==> fin.ui.messages[i].id != s.stream.aiId)
  {
    var es := Delivered(ps);
    var fin := Feed(s, es);
    FeedOnlyChangesTarget(s, es);
    assert fin.ui.messages[..n + 1] == s.ui.messages[..n + 1];
    assert forall i :: 0 <= i < n + 1 ==> fin.ui.messages[i] == s.ui.messages[i];
    FeedAccumulatesContent(s, es);
    DeliveredContent(ps);
    assert "" + CS.ContentText(ps) == CS.ContentText(ps);
    FeedStaysOpen(s, es);
    if Ended(ps) {
      FeedClosesOnEnd(s, es);
    }
  }

  /** The session a successful submit opens: nothing streamed yet, and the
      placeholder, right after the user's message, is the only message with
      the assistant id. */
  lemma SubmitOpensSession(ui: Ui)
    requires !IsBlank(ui.currentMessage)
    ensures var s := Opened(ui);
      var n := |ui.messages|;
      && s.stream.open && s.stream.streamed == "" && Mirrors(s)
      && |s.ui.messages| == n + 2 && s.ui.messages[n + 1].id == s.stream.aiId
      && (forall i :: 0 <= i < n + 1 ==> s.ui.messages[i].id != s.stream.aiId)
  {
    var sub := Submit(ui, false);
    var msgs := sub.ui.messages;
    var n := |ui.messages|;
    var aiId := sub.connection.value.stream.aiId;
    assert msgs[n + 1] == Placeholder(aiId);
    forall i | 0 <= i < n + 1 ensures msgs[i].id != aiId {
      if i < n {
        assert msgs[i] == ui.messages[i];
      }
    }
  }

  /** The session a submit with a working connection opens. */
  function Opened(ui: Ui): Session
    requires !IsBlank(ui.currentMessage)
  {
    var sub := Submit(ui, false);
    Session(sub.ui, sub.connection.value.stream)
  }

  /** The end of the response: a source still open saw no `end`, so the
      connection closed under it and `onerror` runs. */
  function Settle(s: Session): Session
  {
    if s.stream.open then OnError(s) else s
  }

  /** A stream fed to a freshly opened session, then settled: the source
      is closed, and the placeholder at index `n + 1` shows the stream's
      content text, or the error text when the stream stopped without
      `end` and sent no content. */
  lemma SettleTurn(s: Session, n: nat, ps: seq<CS.Payload>)
    requires s.stream.open && s.stream.streamed == "" && Mirrors(s)
    requires |s.ui.messages| == n + 2 && s.ui.messages[n + 1].id == s.stream.aiId
    requires forall i :: 0 <= i < n + 1 ==> s.ui.messages[i].id != s.stream.aiId
    requires forall i :: 0 <= i < |ps| - 1 ==> !ps[i].End?
    ensures var fin := Settle(Feed(s, Delivered(ps)));
      && |fin.ui.messages| == n + 2
      && fin.ui.messages[..n + 1] == s.ui.messages[..n + 1]
      && fin.ui.messages[n + 1].id == s.stream.aiId
      && !fin.stream.open
      && fin.ui.messages[n + 1].content ==
           if !Ended(ps) && CS.ContentText(ps) == "" then StreamErrorText else CS.ContentText(ps)
  {
    FeedTurn(s, n, ps);
    SettleFed(Feed(s, Delivered(ps)), n, CS.ContentText(ps), Ended(ps));
  }

  /** Settling a fed session whose placeholder at index `n + 1` shows the
      streamed `text`. */
  lemma SettleFed(fed: Session, n: nat, text: string, ended: bool)
    requires |fed.ui.messages| == n + 2 && fed.ui.messages[n + 1].id == fed.stream.aiId
    requires forall i :: 0 <= i < n + 1 ==> fed.ui.messages[i].id != fed.stream.aiId
    requires fed.ui.messages[n + 1].content == text && fed.stream.streamed == text
    requires fed.stream.open <==> !ended
    ensures var fin := Settle(fed);
      && |fin.ui.messages| == n + 2
      && fin.ui.messages[..n + 1] == fed.ui.messages[..n + 1]
      && fin.ui.messages[n + 1].id == fed.stream.aiId
      && !fin.stream.open
      && fin.ui.checkpointId == fed.ui.checkpointId
      && fin.ui.messages[n + 1].content == if !ended && text == "" then StreamErrorText else text
  {
    if fed.stream.open {
      ErrorEndsTurn(fed, n);
    }
  }

  /** The messages after a turn's stream, settled. */
  lemma ReceiveMessages(ui: Ui, ps: seq<CS.Payload>)
    requires !IsBlank(ui.currentMessage)
    requires forall i :: 0 <= i < |ps| - 1 ==> !ps[i].End?
    ensures var s0 := Opened(ui);
      var fin := Settle(Feed(s0, Delivered(ps)));
      var n := |ui.messages|;
      && |fin.ui.messages| == n + 2
      && fin.ui.messages[..n + 1] == s0.ui.messages[..n + 1]
      && fin.ui.messages[n + 1].id == s0.stream.aiId
      && !fin.stream.open
      && fin.ui.messages[n + 1].content ==
           if !Ended(ps) && CS.ContentText(ps) == "" then StreamErrorText else CS.ContentText(ps)
  {
    SubmitOpensSession(ui);
    SettleTurn(Opened(ui), |ui.messages|, ps);
  }

  /** The thread a turn's stream leaves the page on, settled. */
  lemma ReceiveThread(ui: Ui, ps: seq<CS.Payload>)
    requires !IsBlank(ui.currentMessage)
    requires forall i :: 0 < i < |ps| ==> !ps[i].Checkpoint?
    ensures |ps| > 0 && ps[0].Checkpoint? ==>
      Settle(Feed(Opened(ui), Delivered(ps))).ui.checkpointId == Some(ps[0].checkpointId)
  {
    if |ps| > 0 && ps[0].Checkpoint? {
      SubmitOpensSession(ui);
      PageLearnsThread(Opened(ui), ps, ps[0].checkpointId);
    }
  }

  /** The page's side of a turn: the page submits `ui` with a working
      connection and receives a stream framed as the backend frames it.
      A stream that ends with `end` closes the source; one that stops
      without it ends in `onerror`, which closes the source too. The
      placeholder right after the user's message ends up showing the
      stream's content text, or the error text when the stream stopped
      without `end` and sent no content; the messages before it stay as
      they were, and a stream that opens with a thread id leaves the page
      on that thread. */
  function ReceiveTurn(ui: Ui, ps: seq<CS.Payload>): (fin: Session)
    requires !IsBlank(ui.currentMessage)
    requires forall i :: 0 <= i < |ps| - 1 ==> !ps[i].End?
    requires forall i :: 0 < i < |ps| ==> !ps[i].Checkpoint?
    ensures |fin.ui.messages| == |ui.messages| + 2
    ensures fin.ui.messages[..|ui.messages| + 1] == Submit(ui, false).ui.messages[..|ui.messages| + 1]
    ensures fin.ui.messages[|ui.messages| + 1].id == Submit(ui, false).connection.value.stream.aiId
    ensures fin.ui.messages[|ui.messages| + 1].content ==
      if !Ended(ps) && CS.ContentText(ps) == "" then StreamErrorText else CS.ContentText(ps)
    ensures |ps| > 0 && ps[0].Checkpoint? ==> fin.ui.checkpointId == Some(ps[0].checkpointId)
    ensures !fin.stream.open
  {
    ReceiveMessages(ui, ps);
    ReceiveThread(ui, ps);
    Settle(Feed(Opened(ui), Delivered(ps)))
  }

  /** One full chat turn: the backend's answer to the page's request, and
      the page after receiving it. */
  datatype Turn = Turn(response: CS.Response, page: Session)

  /** One full chat turn. The page submits with a working connection, the
      request's message reaches the backend's route unchanged, and the page
      receives the answer's events. The source always ends closed: by `end`,
      or by `onerror` when the backend's loop raised. The placeholder,
      still right after the user's message, shows the assistant text the
      backend stored, which is the text of the model's chunks before the
      first failure, except after a failure that came before any text,
      when it shows the error text instead. The messages before it are
      untouched, and a page without a checkpoint learns the thread id. */
  function ChatTurn(
    ui: Ui, db: Store.Db, freshTid: Store.ThreadId, now: Store.Timestamp,
    llm: string -> TitleGate.LlmReply, events: seq<CS.GraphEvent>): (t: Turn)
    requires Store.Valid(db)
    requires !IsBlank(ui.currentMessage)
    ensures var req := Submit(ui, false).connection.value.request;
      t.response == CS.GenerateChatResponses(db, req.message, req.checkpointId, freshTid, now, llm, events)
    ensures |t.page.ui.messages| == |ui.messages| + 2
    ensures t.page.ui.messages[..|ui.messages| + 1] == Submit(ui, false).ui.messages[..|ui.messages| + 1]
    ensures t.page.ui.messages[|ui.messages| + 1].id == Submit(ui, false).connection.value.stream.aiId
    ensures t.page.ui.messages[|ui.messages| + 1].content ==
      if CS.Transduce(events).raised && CS.ChunkText(events) == "" then StreamErrorText else CS.ChunkText(events)
    ensures !(CS.Transduce(events).raised && CS.ChunkText(events) == "") ==>
      Some(t.page.ui.messages[|ui.messages| + 1].content) == Store.ContentOf(t.response.db.rows, t.response.assistantId)
    ensures RequestCheckpoint(ui.checkpointId).None? ==> t.page.ui.checkpointId == Some(t.response.threadId)
    ensures !t.page.stream.open
  {
    var req := Submit(ui, false).connection.value.request;
    var resp := CS.GenerateChatResponses(db, req.message, req.checkpointId, freshTid, now, llm, events);
    EndOnlyLast(resp.payloads);
    FramedEnded(resp.payloads, req.checkpointId, resp.threadId, CS.Transduce(events).raised);
    Turn(resp, ReceiveTurn(ui, resp.payloads))
  }
}

# A verified model of a streaming chat backend and its chat page

The system is a small chat assistant.

- **Backend.** A FastAPI service (`backend/app.py`) streams the reply to a
  chat message as server-sent events (SSE). It stores both sides of the
  conversation in a database and lets a language model retitle the
  conversation after its first few user messages.
- **Frontend.** A React page (`frontend/src/app/page.tsx`) sends the
  message. It then folds the streamed events into a placeholder assistant
  message.

This project models the logic of both halves as pure Dafny functions over
immutable datatypes and proves what the code promises:

- **`basics.dfy`**: `Option`, `Result` and `" ".join`.
- **`title.dfy`**: `sanitize_title`, with Python's `re.findall`,
  `str.strip` and slice semantics written out, and `extract_text`.
- **`store.dfy`**: the database as a map of conversations and a sequence of
  message rows with increasing ids. It covers row insertion, the chunk
  append with its recreate fallback, `get_messages`, and the 404 and
  cascade behaviour of `update_conversation` and `delete_conversation`.
- **`title_gate.dfy`**: `maybe_update_title`: the user-message gate, the
  prompt, and the guarded overwrite. The title model is a parameter that
  answers or raises.
- **`router.dfy`**: `tools_router`.
- **`chat_stream.dfy`**: `generate_chat_responses`. It is a transducer from
  a sequence of graph events to a sequence of SSE payloads (`checkpoint`,
  `content`, `search_start`, `search_results`, `end`). Next to it sit the
  database writes: conversation, user row, retitling, assistant row and
  chunk appends.
- **`page.tsx` side (`page.dfy`)**: `handleSubmit` (id allocation, the two
  appends, the query parameter) and the `onmessage`/`onerror` callbacks.
  These become a reducer over the page state plus the callbacks' closure
  state.
- **`end_to_end.dfy`**: the backend's payloads fed to the page reducer,
  followed by `onerror` when the response stops without `end`. After one
  turn the source is closed. The placeholder shows the assistant text the
  backend stored, or the error text when the backend's loop failed before
  any text was streamed.

The outside world is a set of parameters:

- the thread id `uuid4()` would produce;
- the `utcnow()` reading;
- the title model's reply, or its exception, as a function of the prompt;
- the LangGraph event stream.

## Model

| member | source | states |
|---|---|---|
| Title.RunLength | backend/app.py:120 | the length of the longest alphanumeric prefix: everything before it is `[A-Za-z0-9]` and the character at it is not |
| Title.Words | backend/app.py:120 | `re.findall(r"[A-Za-z0-9]+")` yields only non-empty alphanumeric words |
| Title.WordsEmptyIff | backend/app.py:120 | `re.findall` finds no word exactly when the text holds no ASCII letter or digit |
| Title.PyPrefix | backend/app.py:123 | `words[:max_words]` is a prefix of the list, of length `max_words` clamped to the list, counting from the end for a negative bound |
| Title.SanitizeTitle | backend/app.py:113-124 | "New Chat" when the text has no alphanumeric run (text that has words can still sanitise to "New Chat", as "New Chat!" does); otherwise the words of the result are the first `max_words` words of the input in order (none for a budget of zero, which gives ""), the result is those words joined by single spaces, it holds only letters, digits and spaces, and with a budget of at least two it has between one and `max_words` words |
| Title.SanitizeIdempotent | backend/app.py:113-124 | for every budget of at least two, including the 3 used at line 161, sanitising a sanitised title returns it unchanged |
| Title.SanitizeOneWordNotIdempotent | backend/app.py:115-123 | with a budget of one, idempotence fails: the fallback "New Chat" re-sanitises to "New" |
| Title.SanitizeNeverEmpty | backend/app.py:161-163 | with the budget of three the sanitised title is never empty, so the `new_title` truth test only filters "New Chat" |
| Title.WordsOfJoin | backend/app.py:120-123 | joining words with single spaces and splitting again gives back the same words |
| Title.JoinAlnumOrSpace | backend/app.py:123 | words joined by spaces contain only alphanumerics and spaces |
| Title.NewChatWords | backend/app.py:116 | the fallback title is the two words "New" and "Chat", joined by one space |
| Title.StripKeepsWords | backend/app.py:118-120 | stripping non-alphanumeric characters from both ends never changes the words found |
| Title.StripQuotesKeepsWords | backend/app.py:118-120 | `.strip().strip('"').strip("'")` never changes the words found, so only the regex decides the title |
| Title.ExtractText | backend/app.py:96-110 | `None` gives "", a string is returned as is, a `content` attribute wins over `text`, an attribute that is `None` gives "", and `str(obj)` is the fallback |
| Title.ExtractPrefersContent | backend/app.py:105-106 | once an object has a `content` attribute, `text` and `str(obj)` never matter, and a `None` or empty `content` gives "" |
| Store.NextId | backend/app.py:216-221 | a new row's id is positive and larger than every stored id |
| Store.InsertMessage | backend/app.py:199-205 | the row is appended at the end with an id no other row has, and the tables stay well formed |
| Store.CreateConversation | backend/app.py:188-196 | a new thread gets a conversation with the given title and time, and an existing thread is left as it was |
| Store.ContentOf | backend/app.py:283 | `session.get(Message, id)` finds nothing exactly when no row has that id, and what it finds is the content of a row with that id |
| Store.AppendChunk | backend/app.py:281-293 | an existing row's content becomes its old content followed by the chunk, and every other row is untouched; a missing row is recreated by inserting a new row that holds just the chunk |
| Store.UserRows | backend/app.py:134-136 | the user-row filter keeps every user row and only user rows, each taken from the input |
| Store.UserRowsAppend | backend/app.py:134-146 | the filter keeps order: the user rows of two runs of rows are those of the first run followed by those of the second |
| Store.ThreadRowsAppend | backend/app.py:134-146 | the thread filter keeps order: a thread's rows in two runs of rows are its rows in the first run followed by its rows in the second |
| Store.GetMessagesExact | backend/app.py:344-358 | `get_messages` returns exactly the rows of the thread, in increasing id order |
| Store.UpdateConversation | backend/app.py:362-378 | fails with 404 "Conversation not found" exactly when the thread is unknown; otherwise only that conversation's title changes, the messages are untouched, and the returned record is the updated conversation |
| Store.DeleteConversation | backend/app.py:380-396 | fails with 404 exactly when the thread is unknown; otherwise exactly that conversation is removed and every other one is kept |
| Store.DeleteCascades | backend/app.py:384-392 | after a delete the thread has no messages left, and every other thread's messages are what they were |
| TitleGate.NonEmptyContents | backend/app.py:150 | the list holds only non-empty contents; every non-empty content of a row is in it, every entry is some row's content, and it is no longer than the rows |
| TitleGate.NonEmptyContentsAppend | backend/app.py:150 | the filter keeps order: the list for two runs of rows is the two lists one after the other, and a single row contributes its content exactly when it is non-empty |
| TitleGate.ReplyTitle | backend/app.py:158-161 | a raised call gives no title; a reply gives a non-empty canonical title of one to three words, whose words are the first three words of the reply's extracted text, or "New Chat" when that text has no words |
| TitleGate.MaybeUpdateTitle | backend/app.py:127-172 | messages and the set of conversations never change, only the thread's own title may change, and it changes only when the thread has between one and three user messages and its conversation exists |
| TitleGate.TitleFollowsReply | backend/app.py:140-167 | a changed title is a well-formed title other than "New Chat"; when the gate is open, a reply that sanitises to anything but "New Chat" becomes the title, and a raised call or a "New Chat" answer changes nothing |
| TitleGate.EmptyContentKeepsTitle | backend/app.py:158-167 | a reply whose `content` is `None` or empty leaves the database unchanged, whatever its `text` says |
| TitleGate.FirstMessageOpensGate | backend/app.py:133-150 | right after the first message of a thread with no rows is stored, the thread has exactly one user message, so the gate is open, and the prompt's context is that message |
| TitleGate.ApplyReply | backend/app.py:163-167 | the overwrite happens exactly for a non-empty title other than "New Chat" on an existing conversation |
| Router.ToolsRouter | backend/app.py:44-48 | an empty state fails; otherwise the route is the tool node exactly when the last message has a non-empty `tool_calls`. This is the case split of the source itself; `Router.RouteDependsOnLastOnly` is its partner |
| Router.RouteDependsOnLastOnly | backend/app.py:45-48 | earlier messages never influence the route |
| ChatStream.SearchCalls | backend/app.py:299 | the filtered calls are all search calls, there are none exactly when no call is a search call, and the first is the earliest search call |
| ChatStream.EscapeIsReplaceChain | backend/app.py:302 | the three chained `replace` calls escape each character independently, because no later replacement touches what an earlier one inserted |
| ChatStream.UrlsAppend | backend/app.py:308 | the url list is built item by item in order; an item contributes its `url` exactly when it is a dict with that key |
| ChatStream.StepOf | backend/app.py:274-309 | an event raises exactly when it is a non-`AIMessageChunk` chunk or a failure of the graph run; an `AIMessageChunk` emits `content` with its text, and only chunks emit `content`; a model end emits `search_start` exactly when some call is a search call, carrying the escaped query of the first one; a tool end emits `search_results` exactly for the search tool with list output; other events emit nothing; no event emits `checkpoint` or `end` |
| ChatStream.Transduce | backend/app.py:274-309 | the loop emits no `checkpoint` or `end`, at most one payload per event, stops exactly when some event fails, and the text of its `content` payloads is the text of the model's chunks before the first failure |
| ChatStream.TransduceOne | backend/app.py:274-309 | the loop over a single event yields exactly that event's step; with `TransduceAppend` this fixes the output for every event sequence |
| ChatStream.TransduceAppend | backend/app.py:274-309 | the stream is incremental: more events only extend the payloads, unless the earlier events already raised |
| ChatStream.PersistChunks | backend/app.py:277-293 | the chunk appends keep the tables well formed and leave the conversations alone; while the assistant row exists they change no row other than it. If the row is missing, the recreate path of `Store.AppendChunk` adds a new row with a fresh id, and this contract then promises nothing about the rows |
| ChatStream.PersistMatchesStream | backend/app.py:281-295 | after the appends, the assistant row holds its earlier text followed by the text of every `content` payload, in order |
| ChatStream.PrepareTurn | backend/app.py:181-267 | the thread id is the fresh one exactly for a request without a checkpoint; exactly two rows are appended: the user's message, then an empty assistant row; only the turn's conversation is added or changed, a new one gets the placeholder title and the turn's time, and its title either stays or becomes a well-formed title of one to three words other than "New Chat"; the conversations are those `maybe_update_title` leaves when run on the database right after the user row is stored |
| ChatStream.GenerateChatResponses | backend/app.py:175-312 | earlier rows are kept; the turn adds the user row and then the assistant row, both in the turn's thread; other conversations are untouched, and the conversations are those `maybe_update_title` leaves when run right after the user row is stored; the payloads are the loop's output, preceded by `checkpoint` exactly for a new thread and followed by `end` exactly when nothing failed; the stored assistant text is exactly the concatenation of the `content` payloads sent, and equals the text of the model's chunks before the first failure; `checkpoint` never comes later and `end` occurs at most once, last |
| ChatStream.NewThreadTitle | backend/app.py:175-210 | a new conversation is titled from its first message: after the turn its title is the title model's sanitised answer to the prompt built from that message, or "New Chat" when the call raised or the answer sanitised to "New Chat" |
| ChatStream.TurnDatabase | backend/app.py:181-295 | after a turn the tables are well formed, the earlier rows are kept, and the user row and the assistant row follow in the turn's thread |
| ChatStream.TurnConversationsKept | backend/app.py:181-295 | the event loop never touches the conversations, so the turn's effect on them is the one `PrepareTurn` states |
| ChatStream.TurnStream | backend/app.py:234-312 | the payloads are the framed loop output, and the assistant row ends up holding both their `content` text and the model's chunk text |
| ChatStream.AssistantRowKept | backend/app.py:281-295 | the appends keep the earlier rows and the user's row, and leave the assistant row in place with its id and thread |
| ChatStream.FreshAssistantText | backend/app.py:277-295 | an assistant row saved empty ends up holding exactly the text of the framed stream's `content` payloads |
| ChatStream.FrameShape | backend/app.py:234-312 | the framing facts of `Framed` (checkpoint first exactly for a new thread, one `end` last unless the loop raised) hold for any loop output without `checkpoint` or `end` |
| Page.MaxId | frontend/src/app/page.tsx:40 | `Math.max` over the ids is an upper bound that some message attains |
| Page.NewMessageId | frontend/src/app/page.tsx:38-41 | the new id is above every existing id, is 1 for an empty list, and is otherwise one more than some existing id |
| Page.RequestCheckpoint | frontend/src/app/page.tsx:77-79 | the `checkpoint_id` parameter is sent exactly for a present, non-empty checkpoint |
| Page.SubmitAsWritten | frontend/src/app/page.tsx:35-235 | blank input is ignored; otherwise the user message and the placeholder are appended after the earlier messages, the input is cleared and the checkpoint kept; a failed setup opens no source and appends the connection error with the placeholder's id, and a working setup opens a source with nothing streamed that requests the text |
| Page.SubmitAgreesWhenSetupSucceeds | frontend/src/app/page.tsx:56-222 | when setting up the `EventSource` does not throw, the corrected submission is exactly the one page.tsx performs |
| Page.FirstSubmitIds | frontend/src/app/page.tsx:24-41 | on a fresh page, whose only message is the greeting with id 1, the first message gets id 2 and its placeholder id 3 |
| Page.Submit | frontend/src/app/page.tsx:35-72 | blank input after `trim` is ignored; otherwise exactly two messages are appended: the user message with the new id, then the loading placeholder with the next id and empty search info; the input is cleared, the request carries the text, and ids stay distinct |
| Page.SetupFailureDuplicatesId | frontend/src/app/page.tsx:223-235 | when setting up the event source throws, the page as written ends with two messages that share an id |
| Page.AppendFreshIds | frontend/src/app/page.tsx:43-72 | appending two messages with increasing ids above all existing ids keeps ids distinct |
| Page.UpdateTarget | frontend/src/app/page.tsx:94-99 | `prev.map` changes only the messages with the target id, and those keep their id, author and kind |
| Page.OnMessage | frontend/src/app/page.tsx:85-198 | every event changes only the placeholder; a closed source ignores events; only `end` closes the source; only the three search events change the stored search data, and without search data no other event changes any message's search info |
| Page.OnError | frontend/src/app/page.tsx:200-218 | the source is closed, and the placeholder shows the error text only when nothing has been streamed |
| Page.FeedOnlyChangesTarget | frontend/src/app/page.tsx:94-190 | over any sequence of events, every message but the placeholder is unchanged |
| Page.FeedAccumulatesContent | frontend/src/app/page.tsx:91-100 | the streamed text is the earlier text followed by every chunk received before `end`, and the placeholder shows exactly that text |
| Page.ClosedIgnoresEvents | frontend/src/app/page.tsx:193 | after `eventSource.close()` no event changes anything |
| Page.ContentEventsConcatenate | frontend/src/app/page.tsx:91-100 | after a run of `content` events the placeholder holds the concatenation of all chunks and is no longer loading |
| Page.ContentEventsStopLoading | frontend/src/app/page.tsx:97 | after any `content` event the placeholder is no longer loading |
| Page.NoSearchNoStages | frontend/src/app/page.tsx:173-191 | a stream without search events leaves the search data empty, and `end` then adds no `writing` stage: no message's search info changes |
| Page.SearchEventEffects | frontend/src/app/page.tsx:89-191 | `checkpoint` sets the checkpoint and touches no message; `search_start` sets the stages to `searching` with the query and no urls; `search_results` appends `reading`, keeps the query and takes the urls; `search_error` appends `error` and clears the urls; `end` shows `writing` only after an earlier search event and otherwise leaves the messages alone |
| Page.StagesOnlyGrow | frontend/src/app/page.tsx:121-172 | between two `search_start` events the stage list only grows at its end and keeps its shape |
| Page.OnMessageKeepsStages | frontend/src/app/page.tsx:101-172 | each event keeps the stored stage list non-empty, with `searching` only in front and no `writing` |
| EndToEnd.ToServerEvent | frontend/src/app/page.tsx:87-173 | each backend payload reaches the page as the event of the same type with the same field: the checkpoint id, the content, the query or the urls |
| EndToEnd.DeliveredContent | frontend/src/app/page.tsx:91-100 | when `end` can only come last, the page collects exactly the text of the backend's `content` payloads |
| EndToEnd.FeedKeepsCheckpoint | frontend/src/app/page.tsx:89-90 | events without `checkpoint` leave the page's checkpoint alone |
| EndToEnd.FeedClosesOnEnd | frontend/src/app/page.tsx:173-193 | a stream whose last event is `end` leaves the source closed |
| EndToEnd.EndOnlyLast | backend/app.py:312 | a stream framed as the backend frames it has `end` nowhere but last |
| EndToEnd.PageLearnsThread | frontend/src/app/page.tsx:89-90 | a stream that opens with a thread id leaves the page on that thread |
| EndToEnd.SubmitOpensSession | frontend/src/app/page.tsx:56-85 | a successful submit opens a source with nothing streamed, whose placeholder is the only message with the assistant id |
| EndToEnd.FramedEnded | backend/app.py:274-312 | a stream framed as the backend frames it ends with `end` exactly when the loop did not raise |
| EndToEnd.ErrorEndsTurn | frontend/src/app/page.tsx:200-217 | `onerror` closes the source, keeps the checkpoint and the other messages, and puts the error text in the placeholder exactly when nothing was streamed |
| EndToEnd.ReceiveTurn | frontend/src/app/page.tsx:35-217 | the page side of one turn, for any earlier messages: earlier messages untouched; the source always ends closed, by `end` or by `onerror`; the placeholder shows the stream's content text, or the error text when the stream stopped without `end` and sent no content; the thread is learnt from a leading `checkpoint` |
| EndToEnd.ChatTurn | backend/app.py:175-312 | one full turn, for any earlier messages: the source ends closed; the placeholder shows the model's chunk text before the first failure, which is exactly the assistant text the backend stored, except when the loop failed before any text and the page shows the error text instead; a page without a checkpoint learns the new thread id |

## Left out

- The language model, LangGraph, Tavily and `tool_node`. They are foreign services.
  - Their outputs are inputs to the model: the graph events, and the title model's reply as a function of the prompt.
  - `model` and `tool_node` are not modelled.
- SQLAlchemy sessions and the schema. The database is a map of conversations plus a row sequence.
  - `backend/models.py` as shipped defines no `Message` class. The row shape follows its uses in app.py.
  - Ids are SQLite rowids: the last id plus one.
  - Commit failures are not modelled.
- FastAPI routing, CORS, `StreamingResponse`, and the JSON and SSE text framing. Payloads and events are datatypes, and `ToServerEvent` stands for `json.dumps` followed by `JSON.parse`.
- `get_conversations` and its newest-first ordering. It is a read-only listing outside the streamed turn.
- `uuid4` and `utcnow` are parameters. One clock reading `now` serves the whole turn, so timestamps within a turn are equal.
- Title.ExtractText: `str(obj)` is an opaque input string (`repr`). Python's `__str__` of an arbitrary object is not modelled.
- ChatStream.StepOf:
  - Chunk content is a string. A list-valued `AIMessageChunk.content` is not modelled.
  - Tool-call arguments are strings.
  - A call without a `name` key, which would raise `KeyError`, is not modelled.
- ChatStream.GenerateChatResponses:
  - An exception from the chat model or the search tool is the `GraphFailure` event. It ends the stream without `end`, like a foreign chunk. What Starlette then does with the broken response is not modelled.
  - Database exceptions raised inside `maybe_update_title` are outside the model. Only the title model's exception, caught at app.py:168-170, is modelled.
  - The title step is stated by equating the turn's conversations with `TitleGate.MaybeUpdateTitle` applied right after the user row is stored. `TitleGate.TitleFollowsReply` says what that does, and `ChatStream.NewThreadTitle` spells it out for a new thread.
- Title.SanitizeIdempotent: proved for every budget of at least two, which covers the 3 the backend uses. `Title.SanitizeOneWordNotIdempotent` shows that a budget of one fails.
- EndToEnd.ChatTurn: the model assumes the message reaches `/chat_stream/{message}` (app.py:315) unchanged.
  - A message containing `/` is sent as `%2F`, decoded again by the server, and then matches no route. The server answers 404 and the page shows its stream error instead.
  - A message that is `.` or `..` is removed from the path by the URL parser.
- Page.OnMessage:
  - `search_results` whose `urls` is a JSON string, parsed again at page.tsx:124-126, is not modelled. Urls arrive as a list, which is what the backend sends.
  - A `search_error` event is handled, although this backend never sends one.
- The `addEventListener("end", …)` handler at page.tsx:220-222 is left out. The backend sends only unnamed `data:` events, so a named `end` event never arrives.
- React rendering (`MessageArea`, `Sidebar`, `InputBar`, `Header`) and `console.error` logging. They are presentational only.
- Malformed event data is a no-op event (`Malformed`), as the `catch` at page.tsx:195-197 only logs it.

## Findings

| source | as written | input that shows it | evidently intended | confidence | as-written member | corrected member |
|---|---|---|---|---|---|---|
| frontend/src/app/page.tsx:223-235 | when building the URL or the `EventSource` throws, the `catch` appends a connection-error message with id `newMessageId + 1` after the placeholder that already has that id | a message containing a lone UTF-16 surrogate, which makes `encodeURIComponent` throw `URIError` after the placeholder was added | the error replaces the loading placeholder, so ids stay distinct and nothing is left loading | not executed | Page.SetupFailureDuplicatesId | Page.Submit |

/** The backend's persistent state, abstracted from the SQL tables: a map
    from thread id to its conversation row, and the message rows in the
    order of their ids.

    Message ids behave like SQLite row ids: a new row gets one more than
    the largest id present (1 in an empty table). */
module Store {
  import opened Basics

  type ThreadId = string

  /** A time stamp; the clock itself is outside the model. */
  type Timestamp = int

  datatype Conversation = Conversation(threadId: ThreadId, title: string, createdAt: Timestamp)

  datatype MessageRow = MessageRow(id: nat, threadId: ThreadId, content: string, isUser: bool, createdAt: Timestamp)

  datatype Db = Db(conversations: map<ThreadId, Conversation>, rows: seq<MessageRow>)

  /** An HTTP error raised by a route. */
  datatype HttpError = HttpError(status: int, detail: string)

  const ConversationNotFound: HttpError := HttpError(404, "Conversation not found")

  /** Rows are stored in strictly increasing id order, and each conversation
      is filed under its own thread id. */
  predicate Valid(db: Db)
  {
    && (forall t :: t in db.conversations ==> db.conversations[t].threadId == t)
    && IdsIncreasing(db.rows)
  }

  predicate IdsIncreasing(rows: seq<MessageRow>)
  {
    forall i, j :: 0 <= i < j < |rows| ==> rows[i].id < rows[j].id
  }

  predicate HasRow(rows: seq<MessageRow>, id: nat)
  {
    exists i :: 0 <= i < |rows| && rows[i].id == id
  }

  /** The id the next inserted row receives. */
  function NextId(rows: seq<MessageRow>): (id: nat)
    requires IdsIncreasing(rows)
    ensures id > 0
    ensures forall i :: 0 <= i < |rows| ==> rows[i].id < id
  {
    if rows == [] then 1 else rows[|rows| - 1].id + 1
  }

  /** The rows of one thread, in id order: `query(Message).filter(threadId)`. */
  function ThreadRows(rows: seq<MessageRow>, tid: ThreadId): (r: seq<MessageRow>)
    ensures forall i :: 0 <= i < |r| ==> r[i].threadId == tid
    ensures |r| <= |rows|
  {
    if rows == [] then []
    else if rows[0].threadId == tid then [rows[0]] + ThreadRows(rows[1..], tid)
    else ThreadRows(rows[1..], tid)
  }

  /** The rows that do not belong to `tid`, in their original order. */
  function OtherRows(rows: seq<MessageRow>, tid: ThreadId): (r: seq<MessageRow>)
    ensures forall i :: 0 <= i < |r| ==> r[i].threadId != tid
  {
    if rows == [] then []
    else if rows[0].threadId == tid then OtherRows(rows[1..], tid)
    else [rows[0]] + OtherRows(rows[1..], tid)
  }

  /** The user-authored rows among `rows`. */
  function UserRows(rows: seq<MessageRow>): (r: seq<MessageRow>)
    ensures forall i :: 0 <= i < |r| ==> r[i].isUser
    ensures forall i :: 0 <= i < |rows| && rows[i].isUser ==> rows[i] in r
    ensures forall i :: 0 <= i < |r| ==> r[i] in rows
    ensures |r| <= |rows|
  {
    if rows == [] then []
    else
      var rest := UserRows(rows[1..]);
      assert forall i :: 1 <= i < |rows| ==> rows[i] == rows[1..][i - 1];
      if rows[0].isUser then
        var r := [rows[0]] + rest;
        assert forall i :: 1 <= i < |r| ==> r[i] == rest[i - 1];
        r
      else rest
  }

  /** The user rows keep their order: the user rows of two runs of rows
      are those of the first run followed by those of the second. */
  lemma {:induction false} UserRowsAppend(a: seq<MessageRow>, b: seq<MessageRow>)
    ensures UserRows(a + b) == UserRows(a) + UserRows(b)
  {
    if a == [] {
      assert a + b == b;
    } else {
      var ab := a + b;
      assert ab[0] == a[0];
      assert ab[1..] == a[1..] + b;
      UserRowsAppend(a[1..], b);
      if a[0].isUser {
        assert UserRows(ab) == [a[0]] + UserRows(ab[1..]);
        assert UserRows(a) == [a[0]] + UserRows(a[1..]);
        AppendAssoc([a[0]], UserRows(a[1..]), UserRows(b));
      } else {
        assert UserRows(ab) == UserRows(ab[1..]);
        assert UserRows(a) == UserRows(a[1..]);
      }
    }
  }

  /** A single row is kept exactly when it is a user row. */
  lemma UserRowsOne(row: MessageRow)
    ensures UserRows([row]) == if row.isUser then [row] else []
  {
    assert [row][1..] == [];
  }

  /** A thread's rows in two runs of rows are its rows in the first run
      followed by its rows in the second. */
  lemma {:induction false} ThreadRowsAppend(a: seq<MessageRow>, b: seq<MessageRow>, tid: ThreadId)
    ensures ThreadRows(a + b, tid) == ThreadRows(a, tid) + ThreadRows(b, tid)
  {
    if a == [] {
      assert a + b == b;
    } else {
      assert (a + b)[1..] == a[1..] + b;
      ThreadRowsAppend(a[1..], b, tid);
      if a[0].threadId == tid {
        AppendAssoc([a[0]], ThreadRows(a[1..], tid), ThreadRows(b, tid));
      }
    }
  }

  /** A thread none of whose rows are stored has no messages. */
  lemma {:induction false} NoThreadRows(rows: seq<MessageRow>, tid: ThreadId)
    requires forall i :: 0 <= i < |rows| ==> rows[i].threadId != tid
    ensures ThreadRows(rows, tid) == []
  {
    if rows != [] {
      assert forall i :: 0 <= i < |rows[1..]| ==> rows[1..][i] == rows[i + 1];
      NoThreadRows(rows[1..], tid);
    }
  }

  /** `get_messages(thread_id)`: the thread's messages ordered by id. */
  function GetMessages(db: Db, tid: ThreadId): seq<MessageRow>
  {
    ThreadRows(db.rows, tid)
  }

  /** `get_messages` returns exactly the thread's rows, and in increasing
      id order, as its `order_by(Message.id)` promises. */
  lemma GetMessagesExact(db: Db, tid: ThreadId)
    requires Valid(db)
    ensures forall m :: m in GetMessages(db, tid) <==> m in db.rows && m.threadId == tid
    ensures IdsIncreasing(GetMessages(db, tid))
  {
    ThreadRowsExact(db.rows, tid);
  }

  lemma {:induction false} ThreadRowsExact(rows: seq<MessageRow>, tid: ThreadId)
    requires IdsIncreasing(rows)
    ensures forall m :: m in ThreadRows(rows, tid) <==> m in rows && m.threadId == tid
    ensures IdsIncreasing(ThreadRows(rows, tid))
  {
    if rows != [] {
      var tail := ThreadRows(rows[1..], tid);
      ThreadRowsExact(rows[1..], tid);
      assert rows == [rows[0]] + rows[1..];
      if rows[0].threadId == tid {
        forall i | 0 <= i < |tail|
          ensures rows[0].id < tail[i].id
        {
          assert tail[i] in rows[1..];
          var j :| 0 <= j < |rows[1..]| && rows[1..][j] == tail[i];
          assert rows[j + 1] == tail[i];
        }
        IncreasingCons(rows[0], tail);
      }
    }
  }

  /** A row below every id of an increasing list can go in front of it. */
  lemma IncreasingCons(first: MessageRow, rest: seq<MessageRow>)
    requires IdsIncreasing(rest)
    requires forall i :: 0 <= i < |rest| ==> first.id < rest[i].id
    ensures IdsIncreasing([first] + rest)
  {
    var r := [first] + rest;
    forall i, j | 0 <= i < j < |r|
      ensures r[i].id < r[j].id
    {
      assert r[j] == rest[j - 1];
      if 0 < i {
        assert r[i] == rest[i - 1];
      }
    }
  }

  /** How many user messages a thread has. */
  function UserMessageCount(db: Db, tid: ThreadId): nat
  {
    |UserRows(ThreadRows(db.rows, tid))|
  }

  /** Insert a conversation unless one with that thread id already exists
      (the `existing` check before the first insert of a new thread). */
  function CreateConversation(db: Db, tid: ThreadId, title: string, now: Timestamp): (r: Db)
    requires Valid(db)
    ensures Valid(r)
    ensures r.rows == db.rows
    ensures tid in r.conversations
    ensures tid in db.conversations ==> r == db
    ensures tid !in db.conversations ==> r.conversations[tid] == Conversation(tid, title, now)
    ensures forall t :: t != tid ==> (t in r.conversations <==> t in db.conversations)
    ensures forall t :: t in db.conversations ==> r.conversations[t] == db.conversations[t]
  {
    if tid in db.conversations then db
    else db.(conversations := db.conversations[tid := Conversation(tid, title, now)])
  }

  /** Insert a message row; returns the new database and the row's id. */
  function InsertMessage(db: Db, tid: ThreadId, content: string, isUser: bool, now: Timestamp): (r: (Db, nat))
    requires Valid(db)
    ensures Valid(r.0)
    ensures r.0.conversations == db.conversations
    ensures r.0.rows == db.rows + [MessageRow(r.1, tid, content, isUser, now)]
    ensures !HasRow(db.rows, r.1)
  {
    var id := NextId(db.rows);
    (db.(rows := db.rows + [MessageRow(id, tid, content, isUser, now)]), id)
  }

  /** Set the content of the row with id `id` (rows keep their position). */
  function SetContent(rows: seq<MessageRow>, id: nat, content: string): (r: seq<MessageRow>)
    ensures |r| == |rows|
    ensures forall i :: 0 <= i < |rows| ==> r[i] == rows[i].(content := r[i].content)
    ensures forall i :: 0 <= i < |rows| && rows[i].id != id ==> r[i] == rows[i]
  {
    if rows == [] then []
    else [if rows[0].id == id then rows[0].(content := content) else rows[0]] + SetContent(rows[1..], id, content)
  }

  /** The content of the row with id `id`, if there is one. */
  function ContentOf(rows: seq<MessageRow>, id: nat): (r: Option<string>)
    ensures r.None? <==> !HasRow(rows, id)
    ensures r.Some? ==> exists i :: 0 <= i < |rows| && rows[i].id == id && rows[i].content == r.value
  {
    if rows == [] then None
    else if rows[0].id == id then Some(rows[0].content)
    else
      var r := ContentOf(rows[1..], id);
      assert HasRow(rows, id) ==> HasRow(rows[1..], id) by {
        if HasRow(rows, id) {
          var i :| 0 <= i < |rows| && rows[i].id == id;
          assert rows[1..][i - 1].id == id;
        }
      }
      assert r.Some? ==> HasRow(rows, id) by {
        if r.Some? {
          var i :| 0 <= i < |rows[1..]| && rows[1..][i].id == id && rows[1..][i].content == r.value;
          assert rows[i + 1].id == id && rows[i + 1].content == r.value;
        }
      }
      r
  }

  /** In a table with increasing ids, the last row's content is what
      `ContentOf` finds for its id. */
  lemma {:induction false} ContentAtEnd(rows: seq<MessageRow>, id: nat)
    requires IdsIncreasing(rows)
    requires |rows| > 0 && rows[|rows| - 1].id == id
    ensures ContentOf(rows, id) == Some(rows[|rows| - 1].content)
  {
    if |rows| > 1 {
      assert rows[0].id < rows[|rows| - 1].id;
      assert rows[1..][|rows[1..]| - 1] == rows[|rows| - 1];
      ContentAtEnd(rows[1..], id);
    }
  }

  /** One streamed chunk added to the assistant row (app.py's
      `ai_row.content = (ai_row.content or "") + chunk`); a row that has
      disappeared is recreated holding just the chunk. */
  function AppendChunk(db: Db, id: nat, tid: ThreadId, chunk: string, now: Timestamp): (r: Db)
    requires Valid(db)
    ensures Valid(r)
    ensures r.conversations == db.conversations
    ensures HasRow(db.rows, id) ==> ContentOf(r.rows, id) == Some(ContentOf(db.rows, id).value + chunk)
    ensures HasRow(db.rows, id) ==> |r.rows| == |db.rows|
    ensures HasRow(db.rows, id) ==> forall i :: 0 <= i < |db.rows| ==>
      && r.rows[i] == db.rows[i].(content := r.rows[i].content)
      && (db.rows[i].id != id ==> r.rows[i] == db.rows[i])
    ensures !HasRow(db.rows, id) ==> r == InsertMessage(db, tid, chunk, false, now).0
  {
    match ContentOf(db.rows, id)
    case Some(c) =>
      var rows := SetContent(db.rows, id, c + chunk);
      var r := db.(rows := rows);
      UniqueContent(db.rows, rows, id, c + chunk);
      r
    case None => InsertMessage(db, tid, chunk, false, now).0
  }

  lemma UniqueContent(rows: seq<MessageRow>, rows': seq<MessageRow>, id: nat, c: string)
    requires IdsIncreasing(rows)
    requires HasRow(rows, id)
    requires rows' == SetContent(rows, id, c)
    ensures IdsIncreasing(rows')
    ensures ContentOf(rows', id) == Some(c)
  {
    ContentAfterSet(rows, id, c);
  }

  lemma {:induction false} ContentAfterSet(rows: seq<MessageRow>, id: nat, c: string)
    requires HasRow(rows, id)
    ensures ContentOf(SetContent(rows, id, c), id) == Some(c)
  {
    var rows' := SetContent(rows, id, c);
    assert rows'[1..] == SetContent(rows[1..], id, c);
    if rows[0].id != id {
      var k :| 0 <= k < |rows| && rows[k].id == id;
      assert rows[1..][k - 1].id == id;
      ContentAfterSet(rows[1..], id, c);
    }
  }

  /** `update_conversation(thread_id, title)`: 404 for an unknown thread;
      otherwise only that conversation's title changes and the updated
      conversation is returned. */
  function UpdateConversation(db: Db, tid: ThreadId, title: string): (r: Result<(Db, Conversation), HttpError>)
    requires Valid(db)
    ensures r.Failure? <==> tid !in db.conversations
    ensures r.Failure? ==> r.error == ConversationNotFound
    ensures r.Success? ==>
      var (db', conv) := r.value;
      && Valid(db')
      && db'.rows == db.rows
      && db'.conversations.Keys == db.conversations.Keys
      && conv == db'.conversations[tid]
      && conv.title == title
      && conv.threadId == tid
      && conv.createdAt == db.conversations[tid].createdAt
      && (forall t :: t in db.conversations && t != tid ==> db'.conversations[t] == db.conversations[t])
  {
    if tid !in db.conversations then Failure(ConversationNotFound)
    else
      var conv := db.conversations[tid].(title := title);
      Success((db.(conversations := db.conversations[tid := conv]), conv))
  }

  /** `delete_conversation(thread_id)`: 404 for an unknown thread; otherwise
      the thread's messages and then the conversation are removed. */
  function DeleteConversation(db: Db, tid: ThreadId): (r: Result<Db, HttpError>)
    requires Valid(db)
    ensures r.Failure? <==> tid !in db.conversations
    ensures r.Failure? ==> r.error == ConversationNotFound
    ensures r.Success? ==> Valid(r.value)
    ensures r.Success? ==> r.value.conversations.Keys == db.conversations.Keys - {tid}
    ensures r.Success? ==> forall t :: t in r.value.conversations ==> r.value.conversations[t] == db.conversations[t]
  {
    if tid !in db.conversations then Failure(ConversationNotFound)
    else
      var rows := OtherRows(db.rows, tid);
      OtherRowsIncreasing(db.rows, tid);
      Success(Db(db.conversations - {tid}, rows))
  }

  /** Deleting a thread removes every one of its messages and leaves every
      other thread's messages exactly as they were, in the same order. */
  lemma DeleteCascades(db: Db, tid: ThreadId, other: ThreadId)
    requires Valid(db)
    requires tid in db.conversations
    requires other != tid
    ensures DeleteConversation(db, tid).Success?
    ensures GetMessages(DeleteConversation(db, tid).value, tid) == []
    ensures GetMessages(DeleteConversation(db, tid).value, other) == GetMessages(db, other)
  {
    NoRowsOfDeleted(db.rows, tid);
    OtherThreadsKept(db.rows, tid, other);
  }

  lemma {:induction false} NoRowsOfDeleted(rows: seq<MessageRow>, tid: ThreadId)
    ensures ThreadRows(OtherRows(rows, tid), tid) == []
  {
    if rows != [] {
      NoRowsOfDeleted(rows[1..], tid);
    }
  }

  lemma {:induction false} OtherThreadsKept(rows: seq<MessageRow>, tid: ThreadId, other: ThreadId)
    requires other != tid
    ensures ThreadRows(OtherRows(rows, tid), other) == ThreadRows(rows, other)
  {
    if rows != [] {
      OtherThreadsKept(rows[1..], tid, other);
    }
  }

  /** Every row of `OtherRows` comes from `rows`, in order: it is a
      subsequence, so increasing ids stay increasing. */
  lemma {:induction false} OtherRowsIncreasing(rows: seq<MessageRow>, tid: ThreadId)
    requires IdsIncreasing(rows)
    ensures IdsIncreasing(OtherRows(rows, tid))
    ensures forall i :: 0 <= i < |OtherRows(rows, tid)| ==>
      exists j :: 0 <= j < |rows| && rows[j] == OtherRows(rows, tid)[i]
  {
    if rows != [] {
      var tail := OtherRows(rows[1..], tid);
      OtherRowsIncreasing(rows[1..], tid);
      if rows[0].threadId != tid {
        forall i | 0 <= i < |tail|
          ensures rows[0].id < tail[i].id
        {
          var j :| 0 <= j < |rows[1..]| && rows[1..][j] == tail[i];
          assert rows[j + 1] == tail[i];
        }
        IncreasingCons(rows[0], tail);
      }
    }
    OtherRowsFrom(rows, tid);
  }

  lemma {:induction false} OtherRowsFrom(rows: seq<MessageRow>, tid: ThreadId)
    ensures forall i :: 0 <= i < |OtherRows(rows, tid)| ==>
      exists j :: 0 <= j < |rows| && rows[j] == OtherRows(rows, tid)[i]
  {
    if rows != [] {
      var tail := OtherRows(rows[1..], tid);
      OtherRowsFrom(rows[1..], tid);
      var r := OtherRows(rows, tid);
      forall i | 0 <= i < |r|
        ensures exists j :: 0 <= j < |rows| && rows[j] == r[i]
      {
        if rows[0].threadId == tid {
          var j :| 0 <= j < |rows[1..]| && rows[1..][j] == tail[i];
          assert rows[j + 1] == r[i];
        } else if i == 0 {
          assert rows[0] == r[i];
        } else {
          var j :| 0 <= j < |rows[1..]| && rows[1..][j] == tail[i - 1];
          assert rows[j + 1] == r[i];
        }
      }
    } else {
      assert OtherRows(rows, tid) == [];
    }
  }
}
